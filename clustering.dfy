/** Clustering basins by their static-attribute embeddings (experiment/clustering.py): the
    embedding cache and its count check, the cluster counts tried, and the partition of the
    basins into one `<label>.txt` member list per distinct label. */
module Clustering {
  import opened Wrappers
  import opened Text
  import opened Paths
  import opened Store
  import opened Dicts
  import RunLayout

  type Embeddings = Dict<string, seq<real>>

  function EmbeddingFile(moduleDir: Path): Path {
    moduleDir + ["outputs", "embeddings.pth"]
  }

  // ---------------------------------------------------------------------------
  // get_embeddings

  /** The assignments `embeddings[basin] = embed(features)`, one per basin in order. */
  function Embedded(attributes: Dict<string, seq<real>>, embed: seq<real> -> seq<real>): (r: Embeddings)
    ensures |r| == |attributes|
    ensures forall i :: 0 <= i < |attributes| ==> r[i] == (attributes[i].0, embed(attributes[i].1))
  {
    seq(|attributes|, i requires 0 <= i < |attributes| => (attributes[i].0, embed(attributes[i].1)))
  }

  /** The embeddings dict filled from the dataset's attributes, one `embed` call per basin. */
  function EmbeddingsOf(attributes: Dict<string, seq<real>>, embed: seq<real> -> seq<real>): (r: Embeddings)
    ensures UniqueKeys(r) && |r| <= |attributes|
  {
    FromPairs(Embedded(attributes, embed))
  }

  /** One more basin of the loop is one more assignment. */
  lemma EmbeddingsSnoc(attributes: Dict<string, seq<real>>, embed: seq<real> -> seq<real>, i: nat)
    requires i < |attributes|
    ensures EmbeddingsOf(attributes[..i + 1], embed)
         == Put(EmbeddingsOf(attributes[..i], embed), attributes[i].0, embed(attributes[i].1))
  {
    var es := Embedded(attributes[..i + 1], embed);
    assert es[..|es| - 1] == Embedded(attributes[..i], embed);
  }

  /** Over a dict of attributes, the embeddings have the same basins in the same order, and
      each basin's vector is the embedding of its own features. */
  lemma EmbeddingsKeepBasins(attributes: Dict<string, seq<real>>, embed: seq<real> -> seq<real>)
    requires UniqueKeys(attributes)
    ensures Keys(EmbeddingsOf(attributes, embed)) == Keys(attributes)
    ensures forall i :: 0 <= i < |attributes| ==>
      EmbeddingsOf(attributes, embed)[i] == (attributes[i].0, embed(attributes[i].1))
  {
    var es := Embedded(attributes, embed);
    assert Keys(es) == Keys(attributes);
    FromPairsUnique(es);
  }

  /** get_embeddings: load the cached embeddings, or compute them from the attributes and
      cache them; either way the result must hold exactly NUM_BASINS basins. The cache is
      written before the count is checked. */
  method GetEmbeddings(fs: FileSystem, moduleDir: Path, attributes: Dict<string, seq<real>>,
                       embed: seq<real> -> seq<real>)
    returns (r: Result<Embeddings>)
    modifies fs
    ensures var file := EmbeddingFile(moduleDir);
      && (file in old(fs.files) ==>
            && fs.files == old(fs.files)
            && (old(fs.files)[file].Embeddings? ==>
                  var cached := old(fs.files)[file].vectors;
                  (r.Ok? <==> |cached| == RunLayout.NUM_BASINS) && (r.Ok? ==> r.value == cached))
            && (!old(fs.files)[file].Embeddings? ==> r.Err?))
      && (file !in old(fs.files) ==>
            var computed := EmbeddingsOf(attributes, embed);
            && fs.files == old(fs.files)[file := Embeddings(computed)]
            && (r.Ok? <==> |computed| == RunLayout.NUM_BASINS)
            && (r.Ok? ==> r.value == computed))
  {
    var file := EmbeddingFile(moduleDir);
    var embeddings: Embeddings;
    if file in fs.files {
      if !fs.files[file].Embeddings? {
        return Err(ValueError("not a saved embeddings dict"));
      }
      embeddings := fs.files[file].vectors;
    } else {
      embeddings := [];
      var i := 0;
      while i < |attributes|
        invariant 0 <= i <= |attributes|
        invariant embeddings == EmbeddingsOf(attributes[..i], embed)
        invariant fs.files == old(fs.files)
      {
        var (basin, features) := attributes[i];
        EmbeddingsSnoc(attributes, embed, i);
        embeddings := Put(embeddings, basin, embed(features));
        i := i + 1;
      }
      assert attributes[..i] == attributes;
      assert embeddings == EmbeddingsOf(attributes, embed);
      fs.Write(file, Embeddings(embeddings));
    }
    if |Keys(embeddings)| != RunLayout.NUM_BASINS {
      return Err(AssertionError("did not retrieve as many basins as embeddings"));
    }
    return Ok(embeddings);
  }

  // ---------------------------------------------------------------------------
  // investigate_clusters

  /** investigate_clusters: the inertia of a fit for every cluster count 1 .. maxClusters-1,
      in increasing order. Plotting is not modelled. */
  method InvestigateClusters(embeddings: Embeddings, maxClusters: int, inertia: (Embeddings, nat) -> real)
    returns (errors: seq<real>)
    ensures |errors| == if maxClusters > 1 then maxClusters - 1 else 0
    ensures forall i :: 0 <= i < |errors| ==> errors[i] == inertia(embeddings, i + 1)
  {
    errors := [];
    var n := 1;
    while n < maxClusters
      invariant 1 <= n && (maxClusters > 1 ==> n <= maxClusters) && (maxClusters <= 1 ==> n == 1)
      invariant |errors| == n - 1
      invariant forall i :: 0 <= i < |errors| ==> errors[i] == inertia(embeddings, i + 1)
    {
      errors := errors + [inertia(embeddings, n)];
      n := n + 1;
    }
  }

  // ---------------------------------------------------------------------------
  // Labels and member lists

  predicate StrictlyIncreasing(s: seq<nat>) {
    forall i, j :: 0 <= i < j < |s| ==> s[i] < s[j]
  }

  /** Insert x into a strictly increasing sequence, keeping it so. */
  function Insert(s: seq<nat>, x: nat): (r: seq<nat>)
    requires StrictlyIncreasing(s)
    ensures StrictlyIncreasing(r)
    ensures forall y :: y in r <==> y in s || y == x
  {
    if s == [] then [x]
    else if x < s[0] then [x] + s
    else if x == s[0] then s
    else
      var rest := Insert(s[1..], x);
      assert forall y :: y in s[1..] ==> s[0] < y;
      assert forall j :: 0 <= j < |rest| ==> s[0] < rest[j] by {
        forall j | 0 <= j < |rest| ensures s[0] < rest[j] { assert rest[j] in rest; }
      }
      [s[0]] + rest
  }

  /** `np.unique(labels)`: the distinct labels in increasing order. */
  function Unique(labels: seq<nat>): (r: seq<nat>)
    ensures StrictlyIncreasing(r)
    ensures forall l :: l in r <==> l in labels
  {
    if labels == [] then []
    else Insert(Unique(labels[..|labels| - 1]), labels[|labels| - 1])
  }

  /** The keys whose position carries the given label, in key order. */
  function ClusterMembers(keys: seq<string>, labels: seq<nat>, cluster: nat): (r: seq<string>)
    requires |keys| <= |labels|
    ensures |r| <= |keys|
    ensures forall x :: x in r <==> exists i :: 0 <= i < |keys| && keys[i] == x && labels[i] == cluster
  {
    if keys == [] then []
    else
      var n := |keys|;
      var rest := ClusterMembers(keys[..n - 1], labels, cluster);
      assert forall i :: 0 <= i < n - 1 ==> keys[..n - 1][i] == keys[i];
      rest + (if labels[n - 1] == cluster then [keys[n - 1]] else [])
  }

  /** The positions, below n, labelled with the cluster, in increasing order. */
  ghost function LabelIndices(labels: seq<nat>, cluster: nat, n: nat): (idx: seq<nat>)
    requires n <= |labels|
    ensures forall j :: 0 <= j < |idx| ==> idx[j] < n && labels[idx[j]] == cluster
    ensures forall j, k :: 0 <= j < k < |idx| ==> idx[j] < idx[k]
    ensures forall i :: 0 <= i < n && labels[i] == cluster ==> i in idx
  {
    if n == 0 then []
    else LabelIndices(labels, cluster, n - 1) + (if labels[n - 1] == cluster then [n - 1] else [])
  }

  /** A member list is the keys at the cluster's positions, in the keys' own order. */
  lemma {:induction false} MembersInKeyOrder(keys: seq<string>, labels: seq<nat>, cluster: nat)
    requires |keys| <= |labels|
    ensures var idx := LabelIndices(labels, cluster, |keys|);
      var members := ClusterMembers(keys, labels, cluster);
      |members| == |idx| && forall j :: 0 <= j < |idx| ==> members[j] == keys[idx[j]]
  {
    if keys != [] {
      var n := |keys|;
      var front := keys[..n - 1];
      MembersInKeyOrder(front, labels, cluster);
      var prev := LabelIndices(labels, cluster, n - 1);
      var idx := LabelIndices(labels, cluster, n);
      var members := ClusterMembers(front, labels, cluster) + (if labels[n - 1] == cluster then [keys[n - 1]] else []);
      assert idx == prev + (if labels[n - 1] == cluster then [n - 1] else []);
      assert ClusterMembers(keys, labels, cluster) == members;
      forall j | 0 <= j < |idx|
        ensures members[j] == keys[idx[j]]
      {
        if j < |prev| {
          assert members[j] == front[prev[j]];
        }
      }
    }
  }

  /** With distinct keys, a key is in the member list of exactly its own label. */
  lemma Partition(keys: seq<string>, labels: seq<nat>, i: nat, cluster: nat)
    requires |keys| <= |labels| && i < |keys|
    requires forall a, b :: 0 <= a < b < |keys| ==> keys[a] != keys[b]
    ensures keys[i] in ClusterMembers(keys, labels, cluster) <==> labels[i] == cluster
  {
  }

  /** Every key's own label is one of the distinct labels, so every key lands in a written list. */
  lemma OwnLabelWritten(keys: seq<string>, labels: seq<nat>, i: nat)
    requires |keys| <= |labels| && i < |keys|
    ensures labels[i] in Unique(labels)
  {
  }

  // ---------------------------------------------------------------------------
  // The cluster directory

  /** `outputs/clusters/<config_id>_<number of distinct labels>`. */
  function ClusterDir(moduleDir: Path, configId: string, distinct: nat): (p: Path)
    ensures Parent(p) == moduleDir + ["outputs", "clusters"]
    ensures Name(p) == configId + "_" + NatDigits(distinct)
  {
    moduleDir + ["outputs", "clusters", configId + "_" + NatDigits(distinct)]
  }

  /** `<label>.txt` inside the cluster directory. */
  function ClusterFile(dir: Path, cluster: nat): (p: Path)
    ensures |p| > 0 && Parent(p) == dir && Name(p) == NatDigits(cluster) + ".txt"
  {
    dir + [NatDigits(cluster) + ".txt"]
  }

  lemma ClusterFilesDistinct(dir: Path, l: nat, m: nat)
    requires ClusterFile(dir, l) == ClusterFile(dir, m)
    ensures l == m
  {
    var a, b := NatDigits(l), NatDigits(m);
    assert Name(ClusterFile(dir, l)) == a + ".txt" && Name(ClusterFile(dir, m)) == b + ".txt";
    assert a == (a + ".txt")[..|a|];
    assert |a| == |b|;
    assert b == (b + ".txt")[..|b|];
    NatDigitsInjective(l, m);
  }

  function MemberList(keys: seq<string>, labels: seq<nat>, cluster: nat): Content
    requires |keys| <= |labels|
  {
    Text(LinesText(ClusterMembers(keys, labels, cluster)))
  }

  /** The files after writing the member lists of the labels ls, in order. */
  function ClustersWritten(files: map<Path, Content>, dir: Path, keys: seq<string>, labels: seq<nat>,
                           ls: seq<nat>): map<Path, Content>
    requires |keys| <= |labels|
  {
    if ls == [] then files
    else
      var l := ls[|ls| - 1];
      ClustersWritten(files, dir, keys, labels, ls[..|ls| - 1])[ClusterFile(dir, l) := MemberList(keys, labels, l)]
  }

  /** Writing one more member list extends the files written. */
  lemma ClustersWrittenStep(files: map<Path, Content>, dir: Path, keys: seq<string>, labels: seq<nat>,
                            unique: seq<nat>, i: nat)
    requires |keys| <= |labels| && i < |unique|
    ensures ClustersWritten(files, dir, keys, labels, unique[..i + 1])
         == ClustersWritten(files, dir, keys, labels, unique[..i])[ClusterFile(dir, unique[i]) := MemberList(keys, labels, unique[i])]
  {
    assert unique[..i + 1][..i] == unique[..i];
  }

  function ClusterFileSet(dir: Path, ls: seq<nat>): set<Path> {
    set l | l in ls :: ClusterFile(dir, l)
  }

  lemma ClusterFileSetSnoc(dir: Path, ls: seq<nat>)
    requires ls != []
    ensures ClusterFileSet(dir, ls) == ClusterFileSet(dir, ls[..|ls| - 1]) + {ClusterFile(dir, ls[|ls| - 1])}
  {
    var prefix, last := ls[..|ls| - 1], ls[|ls| - 1];
    assert ls == prefix + [last];
    forall p | p in ClusterFileSet(dir, ls)
      ensures p in ClusterFileSet(dir, prefix) + {ClusterFile(dir, last)}
    {
      var l :| l in ls && p == ClusterFile(dir, l);
    }
  }

  /** Writing the member lists adds exactly one `<label>.txt` per label. */
  lemma {:induction false} ClustersWrittenPaths(files: map<Path, Content>, dir: Path, keys: seq<string>,
                                                labels: seq<nat>, ls: seq<nat>)
    requires |keys| <= |labels|
    ensures ClustersWritten(files, dir, keys, labels, ls).Keys == files.Keys + ClusterFileSet(dir, ls)
  {
    if ls != [] {
      var prefix, last := ls[..|ls| - 1], ls[|ls| - 1];
      ClustersWrittenPaths(files, dir, keys, labels, prefix);
      ClusterFileSetSnoc(dir, ls);
    }
  }

  /** Each written `<label>.txt` holds that label's members, and every other path keeps its
      content. */
  lemma {:induction false} ClustersWrittenContents(files: map<Path, Content>, dir: Path, keys: seq<string>,
                                                   labels: seq<nat>, ls: seq<nat>)
    requires |keys| <= |labels|
    ensures var w := ClustersWritten(files, dir, keys, labels, ls);
      && (forall l :: l in ls ==> ClusterFile(dir, l) in w && w[ClusterFile(dir, l)] == MemberList(keys, labels, l))
      && (forall p :: p in files && p !in ClusterFileSet(dir, ls) ==> p in w && w[p] == files[p])
  {
    if ls != [] {
      var n := |ls|;
      var prefix := ls[..n - 1];
      var last := ls[n - 1];
      ClustersWrittenContents(files, dir, keys, labels, prefix);
      assert ls == prefix + [last];
      ClusterFileSetSnoc(dir, ls);
      forall l | l in prefix && l != last ensures ClusterFile(dir, l) != ClusterFile(dir, last) {
        if ClusterFile(dir, l) == ClusterFile(dir, last) { ClusterFilesDistinct(dir, l, last); }
      }
    }
  }

  /** The directory part of generate_clusters_in_embedding_space: name the directory after the
      config id and the number of distinct labels; if it exists, return it and write nothing;
      otherwise create it and write one member list per distinct cluster. */
  method WriteClusters(fs: FileSystem, configId: string, moduleDir: Path, keys: seq<string>, labels: seq<nat>)
    returns (r: Result<Path>)
    modifies fs
    ensures var unique := Unique(labels);
      var dir := ClusterDir(moduleDir, configId, |unique|);
      && (dir in old(fs.files) ==> r == Ok(dir) && fs.files == old(fs.files))
      && (dir !in old(fs.files) && |labels| < |keys| && |unique| > 0 ==>
            r.Err? && r.error.IndexError? && fs.files == old(fs.files)[dir := Directory])
      && (dir !in old(fs.files) && (|keys| <= |labels| || |unique| == 0) ==>
            && r == Ok(dir)
            && (|keys| <= |labels| ==>
                  fs.files == ClustersWritten(old(fs.files)[dir := Directory], dir, keys, labels, unique))
            && (|labels| < |keys| ==> fs.files == old(fs.files)[dir := Directory]))
    ensures r.Ok? ==> r.value in fs.files
  {
    var unique := Unique(labels);
    var dir := ClusterDir(moduleDir, configId, |unique|);
    if dir in fs.files {
      return Ok(dir);
    }
    fs.Write(dir, Directory);
    var written := WriteMemberLists(fs, dir, keys, labels, unique);
    if written.Err? {
      return Err(written.error);
    }
    if |keys| <= |labels| {
      ClustersWrittenPaths(old(fs.files)[dir := Directory], dir, keys, labels, unique);
    }
    return Ok(dir);
  }

  /** The loop of write_clusters over the distinct labels: one member list per label, where
      the first list fails when there are fewer labels than keys. */
  method WriteMemberLists(fs: FileSystem, dir: Path, keys: seq<string>, labels: seq<nat>, unique: seq<nat>)
    returns (r: Result<()>)
    modifies fs
    ensures |labels| < |keys| && |unique| > 0 ==>
      r.Err? && r.error.IndexError? && fs.files == old(fs.files)
    ensures |labels| < |keys| && |unique| == 0 ==> r.Ok? && fs.files == old(fs.files)
    ensures |keys| <= |labels| ==> r.Ok? && fs.files == ClustersWritten(old(fs.files), dir, keys, labels, unique)
  {
    if |labels| < |keys| {
      // the first list, if there is a label at all, indexes labels at a key it lacks
      if |unique| > 0 {
        return Err(IndexError("index is out of bounds for the labels"));
      }
      return Ok(());
    }
    var i := 0;
    while i < |unique|
      invariant 0 <= i <= |unique|
      invariant fs.files == ClustersWritten(old(fs.files), dir, keys, labels, unique[..i])
    {
      ClustersWrittenStep(old(fs.files), dir, keys, labels, unique, i);
      fs.Write(ClusterFile(dir, unique[i]), MemberList(keys, labels, unique[i]));
      i := i + 1;
    }
    assert unique[..i] == unique;
    return Ok(());
  }

  /** generate_clusters_in_embedding_space once the trained model has been loaded: embed the
      basins, optionally look at the inertia curve, fit the clustering and write the lists.
      Loading the model, fitting and the inertia are the library's and come in as parameters. */
  method GenerateClustersInEmbeddingSpace(fs: FileSystem, model: RunLayout.TrainedModel, moduleDir: Path,
                                          attributes: Dict<string, seq<real>>, embed: seq<real> -> seq<real>,
                                          investigate: bool, inertia: (Embeddings, nat) -> real,
                                          fit: (Embeddings, nat) -> seq<nat>, nClusters: nat)
    returns (r: Result<Path>)
    modifies fs
    ensures r.Ok? ==> r.value in fs.files && Parent(r.value) == moduleDir + ["outputs", "clusters"]
    ensures r.Ok? ==> StartsWith(Name(r.value), model.configId + "_")
  {
    var embeddings :- GetEmbeddings(fs, moduleDir, attributes, embed);
    if investigate {
      var _ := InvestigateClusters(embeddings, 50, inertia);
    }
    var labels := fit(embeddings, nClusters);
    r := WriteClusters(fs, model.configId, moduleDir, Keys(embeddings), labels);
  }
}
