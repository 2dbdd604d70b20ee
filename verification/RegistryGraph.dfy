/** The sealed image graph: what the index lists is exactly what the intent uploads. */
module RegistryGraph {
  import opened Outcomes

  const IndexMediaType := "application/vnd.oci.image.index.v1+json"
  const ManifestMediaType := "application/vnd.oci.image.manifest.v1+json"
  const ConfigMediaType := "application/vnd.oci.image.config.v1+json"

  datatype Descriptor = Descriptor(digest: string, size: nat, mediaType: string)

  datatype ManifestDocument = ManifestDocument(schemaVersion: nat, mediaType: string, config: Descriptor,
    layers: seq<Descriptor>)

  datatype ConfigDocument = ConfigDocument(rootfsType: string, diffIds: seq<string>, revision: string,
    platform: Platform)

  datatype Platform = Platform(architecture: string, os: string)

  const Target := Platform("amd64", "linux")

  /** A blob whose descriptor was compared with its payload; what the payload holds is read off it. */
  datatype Blob = Blob(descriptor: Descriptor, sound: bool, diffId: string, config: Option<ConfigDocument>)

  datatype Manifest = Manifest(descriptor: Descriptor, sound: bool, document: Option<ManifestDocument>)

  datatype IndexEntry = IndexEntry(descriptor: Descriptor, platform: Option<Platform>)

  /** The sealed manifest: its digest, and what was read off it. */
  datatype Index = Index(digest: string, schemaVersion: nat, mediaType: string, entries: seq<IndexEntry>)

  datatype Image = Image(configDigest: string, diffIds: seq<string>, revision: string)

  datatype Graph = Graph(image: Image, index: Index, manifests: seq<Manifest>, blobs: seq<Blob>)

  // ---------------------------------------------------------------- what an exact graph is

  function BlobDescriptors(blobs: seq<Blob>): (ds: seq<Descriptor>)
    ensures |ds| == |blobs| && forall k :: 0 <= k < |ds| ==> ds[k] == blobs[k].descriptor
  {
    seq(|blobs|, k requires 0 <= k < |blobs| => blobs[k].descriptor)
  }

  function ManifestDescriptors(manifests: seq<Manifest>): (ds: seq<Descriptor>)
    ensures |ds| == |manifests| && forall k :: 0 <= k < |ds| ==> ds[k] == manifests[k].descriptor
  {
    seq(|manifests|, k requires 0 <= k < |manifests| => manifests[k].descriptor)
  }

  function EntryDescriptors(entries: seq<IndexEntry>): (ds: seq<Descriptor>)
    ensures |ds| == |entries| && forall k :: 0 <= k < |ds| ==> ds[k] == entries[k].descriptor
  {
    seq(|entries|, k requires 0 <= k < |entries| => entries[k].descriptor)
  }

  predicate DistinctDigests(ds: seq<Descriptor>) {
    forall i, j :: 0 <= i < j < |ds| ==> ds[i].digest != ds[j].digest
  }

  function SetOf(ds: seq<Descriptor>): set<Descriptor> {
    set k | 0 <= k < |ds| :: ds[k]
  }

  /** An image manifest in the one supported form. */
  predicate IsImageManifest(m: Manifest) {
    && m.document.Some?
    && m.document.value.schemaVersion == 2
    && m.document.value.mediaType == m.descriptor.mediaType == ManifestMediaType
  }

  /** What a manifest refers to: its config and its layers. */
  function References(m: Manifest): set<Descriptor>
    requires m.document.Some?
  {
    {m.document.value.config} + SetOf(m.document.value.layers)
  }

  predicate RefersTo(m: Manifest, d: Descriptor) {
    m.document.Some? && d in References(m)
  }

  predicate IsSelected(g: Graph, m: Manifest)
    requires m.document.Some?
  {
    m.document.value.config.digest == g.image.configDigest
  }

  predicate Unpacks(g: Graph, digest: string, diffId: string) {
    exists k :: 0 <= k < |g.blobs| && g.blobs[k].descriptor.digest == digest && g.blobs[k].diffId == diffId
  }

  /** Layer by layer, the blobs unpack to the image's own layers. */
  ghost predicate LayersUnpack(g: Graph, layers: seq<Descriptor>) {
    && |layers| == |g.image.diffIds|
    && forall n :: 0 <= n < |layers| ==> Unpacks(g, layers[n].digest, g.image.diffIds[n])
  }

  /** The manifest that carries the image's config is the image, for the target platform. */
  ghost predicate SelectedFits(g: Graph, m: Manifest)
    requires m.document.Some?
  {
    && m.document.value.config.mediaType == ConfigMediaType
    && LayersUnpack(g, m.document.value.layers)
    && exists k :: 0 <= k < |g.index.entries| && g.index.entries[k].descriptor.digest == m.descriptor.digest
                   && g.index.entries[k].platform == Some(Target)
  }

  ghost predicate ManifestsFit(g: Graph) {
    forall k :: 0 <= k < |g.manifests| ==>
      IsImageManifest(g.manifests[k]) && (IsSelected(g, g.manifests[k]) ==> SelectedFits(g, g.manifests[k]))
  }

  /** The config blob describes the image. */
  predicate DescribesImage(g: Graph, b: Blob) {
    && b.descriptor.digest == g.image.configDigest
    && b.descriptor.mediaType == ConfigMediaType
    && b.config == Some(ConfigDocument("layers", g.image.diffIds, g.image.revision, Target))
  }

  /** Everything the manifests refer to. */
  function AllReferences(manifests: seq<Manifest>): set<Descriptor>
    requires forall k :: 0 <= k < |manifests| ==> manifests[k].document.Some?
  {
    if manifests == [] then {} else AllReferences(manifests[..|manifests| - 1]) + References(manifests[|manifests| - 1])
  }

  predicate WellFormedLists(g: Graph) {
    && g.blobs != [] && g.manifests != []
    && (forall k :: 0 <= k < |g.blobs| ==> g.blobs[k].sound)
    && (forall k :: 0 <= k < |g.manifests| ==> g.manifests[k].sound)
    && DistinctDigests(BlobDescriptors(g.blobs))
    && DistinctDigests(ManifestDescriptors(g.manifests))
  }

  predicate IndexListsManifests(g: Graph) {
    && g.index.schemaVersion == 2
    && g.index.mediaType == IndexMediaType
    && g.index.entries != []
    && DistinctDigests(EntryDescriptors(g.index.entries))
    && SetOf(EntryDescriptors(g.index.entries)) == SetOf(ManifestDescriptors(g.manifests))
  }

  ghost predicate Exact(g: Graph) {
    && WellFormedLists(g)
    && IndexListsManifests(g)
    && ManifestsFit(g)
    && AllReferences(g.manifests) == SetOf(BlobDescriptors(g.blobs))
    && (exists k :: 0 <= k < |g.manifests| && IsSelected(g, g.manifests[k]))
    && (exists k :: 0 <= k < |g.blobs| && DescribesImage(g, g.blobs[k]))
  }

  // ---------------------------------------------------------------- the graph is closed

  /** What a registry client reaches from the index: the listed manifests, and what those refer to. */
  ghost predicate Reachable(g: Graph, digest: string) {
    || (exists k :: 0 <= k < |g.index.entries| && g.index.entries[k].descriptor.digest == digest)
    || (exists k, d :: 0 <= k < |g.manifests| && RefersTo(g.manifests[k], d) && d.digest == digest)
  }

  ghost predicate Required(g: Graph, digest: string) {
    || (exists k :: 0 <= k < |g.manifests| && g.manifests[k].descriptor.digest == digest)
    || (exists k :: 0 <= k < |g.blobs| && g.blobs[k].descriptor.digest == digest)
  }

  lemma {:induction false} ReferencesCollected(manifests: seq<Manifest>, d: Descriptor)
    requires forall k :: 0 <= k < |manifests| ==> manifests[k].document.Some?
    ensures d in AllReferences(manifests) <==> exists k :: 0 <= k < |manifests| && d in References(manifests[k])
    decreases |manifests|
  {
    if manifests != [] {
      var n := |manifests| - 1;
      ReferencesCollected(manifests[..n], d);
      if d in AllReferences(manifests[..n]) {
        var k :| 0 <= k < n && d in References(manifests[..n][k]);
        assert d in References(manifests[k]);
      }
      if exists k :: 0 <= k < |manifests| && d in References(manifests[k]) {
        var k :| 0 <= k < |manifests| && d in References(manifests[k]);
        if k < n { assert d in References(manifests[..n][k]); }
      }
    }
  }

  lemma InSet(ds: seq<Descriptor>, d: Descriptor)
    ensures d in SetOf(ds) <==> exists k :: 0 <= k < |ds| && ds[k] == d
  {
  }

  /** A listed manifest is held, and the other way round. */
  lemma ListedIsHeld(g: Graph, digest: string)
    requires IndexListsManifests(g)
    ensures (exists k :: 0 <= k < |g.index.entries| && g.index.entries[k].descriptor.digest == digest)
            <==> (exists k :: 0 <= k < |g.manifests| && g.manifests[k].descriptor.digest == digest)
  {
    var entries, held := EntryDescriptors(g.index.entries), ManifestDescriptors(g.manifests);
    assert SetOf(entries) == SetOf(held);
    hide SetOf, DistinctDigests;
    if k :| 0 <= k < |g.index.entries| && g.index.entries[k].descriptor.digest == digest {
      InSet(entries, entries[k]);
      InSet(held, entries[k]);
      var n :| 0 <= n < |held| && held[n] == entries[k];
      assert g.manifests[n].descriptor.digest == digest;
    }
    if k :| 0 <= k < |g.manifests| && g.manifests[k].descriptor.digest == digest {
      InSet(held, held[k]);
      InSet(entries, held[k]);
      var n :| 0 <= n < |entries| && entries[n] == held[k];
      assert g.index.entries[n].descriptor.digest == digest;
    }
  }

  /** A blob is referred to, and what is referred to is a blob. */
  lemma ReferredIsBlob(g: Graph, d: Descriptor)
    requires ManifestsFit(g) && AllReferences(g.manifests) == SetOf(BlobDescriptors(g.blobs))
    ensures (exists k :: 0 <= k < |g.manifests| && d in References(g.manifests[k]))
            <==> (exists k :: 0 <= k < |g.blobs| && g.blobs[k].descriptor == d)
  {
    ReferencesCollected(g.manifests, d);
    InSet(BlobDescriptors(g.blobs), d);
    if k :| 0 <= k < |g.blobs| && g.blobs[k].descriptor == d {
      assert BlobDescriptors(g.blobs)[k] == d;
    }
  }

  /** An exact graph uploads what is reachable from its index, all of it and nothing else. */
  lemma {:induction false} RequiredIsReachable(g: Graph, digest: string)
    requires Exact(g)
    ensures Required(g, digest) <==> Reachable(g, digest)
  {
    hide WellFormedLists, IndexListsManifests, References, AllReferences;
    ListedIsHeld(g, digest);
    if k :| 0 <= k < |g.blobs| && g.blobs[k].descriptor.digest == digest {
      var d := g.blobs[k].descriptor;
      ReferredIsBlob(g, d);
      var n :| 0 <= n < |g.manifests| && d in References(g.manifests[n]);
      assert RefersTo(g.manifests[n], d) && d.digest == digest;
    }
    if k, d :| 0 <= k < |g.manifests| && RefersTo(g.manifests[k], d) && d.digest == digest {
      ReferredIsBlob(g, d);
    }
  }

  // ---------------------------------------------------------------- an exact graph, field by field

  predicate Holds(ds: seq<Descriptor>, d: Descriptor) { exists n :: 0 <= n < |ds| && ds[n] == d }

  /** The same descriptors in both lists. */
  ghost predicate SameDescriptors(a: seq<Descriptor>, b: seq<Descriptor>) {
    (forall k :: 0 <= k < |a| ==> Holds(b, a[k])) && (forall k :: 0 <= k < |b| ==> Holds(a, b[k]))
  }

  /** The index and every manifest are of the one supported form. */
  ghost predicate SupportedForm(g: Graph) {
    && g.index.schemaVersion == 2 && g.index.mediaType == "application/vnd.oci.image.index.v1+json"
    && forall k :: 0 <= k < |g.manifests| ==>
         && g.manifests[k].descriptor.mediaType == "application/vnd.oci.image.manifest.v1+json"
         && g.manifests[k].document.Some?
         && g.manifests[k].document.value.schemaVersion == 2
         && g.manifests[k].document.value.mediaType == "application/vnd.oci.image.manifest.v1+json"
  }

  /** The blobs are what the manifests name as config or as layer. */
  ghost predicate BlobsAreNamed(g: Graph) {
    && (forall k, d :: 0 <= k < |g.manifests| && Names(g.manifests[k], d) ==> Holds(BlobDescriptors(g.blobs), d))
    && (forall k :: 0 <= k < |g.blobs| ==> IsNamed(g, g.blobs[k].descriptor))
  }

  ghost predicate IsNamed(g: Graph, d: Descriptor) {
    exists n :: 0 <= n < |g.manifests| && Names(g.manifests[n], d)
  }

  predicate Names(m: Manifest, d: Descriptor) {
    m.document.Some? && (m.document.value.config == d || Holds(m.document.value.layers, d))
  }

  /** The manifest with the image's config has the image's layers and is listed for Linux on amd64. */
  ghost predicate IsTheImage(g: Graph, m: Manifest) {
    && m.document.Some?
    && m.document.value.config.mediaType == "application/vnd.oci.image.config.v1+json"
    && |m.document.value.layers| == |g.image.diffIds|
    && (forall n :: 0 <= n < |g.image.diffIds| ==>
          Unpacks(g, m.document.value.layers[n].digest, g.image.diffIds[n]))
    && exists k :: 0 <= k < |g.index.entries|
                   && g.index.entries[k].descriptor.digest == m.descriptor.digest
                   && g.index.entries[k].platform == Some(Platform("amd64", "linux"))
  }

  /** The config blob names the image's layers, its revision, and Linux on amd64. */
  predicate IsTheConfig(g: Graph, b: Blob) {
    && b.descriptor.digest == g.image.configDigest
    && b.descriptor.mediaType == "application/vnd.oci.image.config.v1+json"
    && b.config.Some?
    && b.config.value.rootfsType == "layers"
    && b.config.value.diffIds == g.image.diffIds
    && b.config.value.revision == g.image.revision
    && b.config.value.platform.architecture == "amd64" && b.config.value.platform.os == "linux"
  }

  lemma SameSets(a: seq<Descriptor>, b: seq<Descriptor>)
    ensures SetOf(a) == SetOf(b) <==> SameDescriptors(a, b)
  {
    forall k | 0 <= k < |a| ensures a[k] in SetOf(b) <==> Holds(b, a[k]) { InSet(b, a[k]); }
    forall k | 0 <= k < |b| ensures b[k] in SetOf(a) <==> Holds(a, b[k]) { InSet(a, b[k]); }
    if SameDescriptors(a, b) { assert SetOf(a) == SetOf(b); }
    if SetOf(a) == SetOf(b) {
      forall k | 0 <= k < |a| ensures Holds(b, a[k]) { InSet(a, a[k]); }
      forall k | 0 <= k < |b| ensures Holds(a, b[k]) { InSet(b, b[k]); }
    }
  }

  lemma NamedIsReferred(m: Manifest, d: Descriptor)
    requires m.document.Some?
    ensures d in References(m) <==> Names(m, d)
  {
    InSet(m.document.value.layers, d);
  }

  lemma ReferredIsNamed(g: Graph, d: Descriptor)
    requires forall k :: 0 <= k < |g.manifests| ==> g.manifests[k].document.Some?
    ensures d in AllReferences(g.manifests) <==> IsNamed(g, d)
  {
    hide References, AllReferences, Names;
    ReferencesCollected(g.manifests, d);
    if k :| 0 <= k < |g.manifests| && d in References(g.manifests[k]) { NamedIsReferred(g.manifests[k], d); }
    if k :| 0 <= k < |g.manifests| && Names(g.manifests[k], d) { NamedIsReferred(g.manifests[k], d); }
  }

  lemma {:induction false} NamedBlobs(g: Graph)
    requires forall k :: 0 <= k < |g.manifests| ==> g.manifests[k].document.Some?
    ensures AllReferences(g.manifests) == SetOf(BlobDescriptors(g.blobs)) <==> BlobsAreNamed(g)
  {
    hide AllReferences, SetOf, Names, BlobDescriptors;
    var ds := BlobDescriptors(g.blobs);
    forall d
      ensures d in AllReferences(g.manifests) <==> IsNamed(g, d)
      ensures d in SetOf(ds) <==> Holds(ds, d)
    {
      ReferredIsNamed(g, d);
      InSet(ds, d);
    }
    if AllReferences(g.manifests) == SetOf(ds) {
      forall k, d | 0 <= k < |g.manifests| && Names(g.manifests[k], d) ensures Holds(ds, d) {
        assert IsNamed(g, d);
        assert d in AllReferences(g.manifests);
      }
      forall k | 0 <= k < |g.blobs| ensures IsNamed(g, g.blobs[k].descriptor) {
        assert ds[k] == g.blobs[k].descriptor;
        assert Holds(ds, ds[k]);
        assert ds[k] in SetOf(ds);
      }
    }
    if BlobsAreNamed(g) {
      forall d ensures d in AllReferences(g.manifests) <==> d in SetOf(ds) {
        if IsNamed(g, d) {
          var k :| 0 <= k < |g.manifests| && Names(g.manifests[k], d);
          assert Holds(ds, d);
        }
      }
    }
  }

  /** A graph is exact if and only if all this holds of its fields. */
  lemma {:induction false} ExactByFields(g: Graph)
    ensures Exact(g) <==>
              && g.blobs != [] && g.manifests != [] && g.index.entries != []
              && (forall k :: 0 <= k < |g.blobs| ==> g.blobs[k].sound)
              && (forall k :: 0 <= k < |g.manifests| ==> g.manifests[k].sound)
              && DistinctDigests(BlobDescriptors(g.blobs))
              && DistinctDigests(ManifestDescriptors(g.manifests))
              && DistinctDigests(EntryDescriptors(g.index.entries))
              && SupportedForm(g)
              && SameDescriptors(EntryDescriptors(g.index.entries), ManifestDescriptors(g.manifests))
              && BlobsAreNamed(g)
              && (exists k :: 0 <= k < |g.manifests| && HasImageConfig(g, g.manifests[k]))
              && (forall k :: 0 <= k < |g.manifests| && HasImageConfig(g, g.manifests[k]) ==>
                    IsTheImage(g, g.manifests[k]))
              && (exists k :: 0 <= k < |g.blobs| && IsTheConfig(g, g.blobs[k]))
  {
    hide SetOf, SameDescriptors, BlobsAreNamed, DistinctDigests, IsTheImage, IsTheConfig, SelectedFits,
      DescribesImage, SupportedForm, IsImageManifest, AllReferences, IsSelected, HasImageConfig, ManifestsFit,
      BlobDescriptors, ManifestDescriptors, EntryDescriptors;
    SameSets(EntryDescriptors(g.index.entries), ManifestDescriptors(g.manifests));
    FormByFields(g);
    ManifestsByFields(g);
    ConfigByFields(g);
    if SupportedForm(g) {
      NamedBlobs(g);
      assert (exists k :: 0 <= k < |g.manifests| && IsSelected(g, g.manifests[k]))
        <==> (exists k :: 0 <= k < |g.manifests| && HasImageConfig(g, g.manifests[k]));
    } else {
      assert !Exact(g);
    }
  }

  lemma ConfigByFields(g: Graph)
    ensures (exists k :: 0 <= k < |g.blobs| && DescribesImage(g, g.blobs[k]))
            <==> (exists k :: 0 <= k < |g.blobs| && IsTheConfig(g, g.blobs[k]))
  {
    forall k | 0 <= k < |g.blobs| ensures DescribesImage(g, g.blobs[k]) <==> IsTheConfig(g, g.blobs[k]) {
    }
    hide DescribesImage, IsTheConfig;
  }

  lemma ManifestsByFields(g: Graph)
    ensures ManifestsFit(g) <==>
              && (forall k :: 0 <= k < |g.manifests| ==> IsImageManifest(g.manifests[k]))
              && (forall k :: 0 <= k < |g.manifests| && HasImageConfig(g, g.manifests[k]) ==>
                    IsTheImage(g, g.manifests[k]))
    ensures forall k :: 0 <= k < |g.manifests| && g.manifests[k].document.Some? ==>
              (IsSelected(g, g.manifests[k]) <==> HasImageConfig(g, g.manifests[k]))
    ensures forall k :: 0 <= k < |g.manifests| && IsImageManifest(g.manifests[k]) ==> g.manifests[k].document.Some?
  {
    forall k | 0 <= k < |g.manifests| && g.manifests[k].document.Some?
      ensures SelectedFits(g, g.manifests[k]) <==> IsTheImage(g, g.manifests[k])
    {
      SelectedByFields(g, g.manifests[k]);
    }
    hide SelectedFits, IsTheImage;
    if ManifestsFit(g) {
      forall k | 0 <= k < |g.manifests|
        ensures IsImageManifest(g.manifests[k])
        ensures HasImageConfig(g, g.manifests[k]) ==> IsTheImage(g, g.manifests[k])
      {
        assert IsImageManifest(g.manifests[k]);
      }
    }
  }

  lemma SelectedByFields(g: Graph, m: Manifest)
    requires m.document.Some?
    ensures SelectedFits(g, m) <==> IsTheImage(g, m)
  {
  }

  predicate HasImageConfig(g: Graph, m: Manifest) {
    m.document.Some? && m.document.value.config.digest == g.image.configDigest
  }

  lemma FormByFields(g: Graph)
    ensures SupportedForm(g) <==>
              && g.index.schemaVersion == 2 && g.index.mediaType == IndexMediaType
              && forall k :: 0 <= k < |g.manifests| ==> IsImageManifest(g.manifests[k])
    ensures SupportedForm(g) ==> forall k :: 0 <= k < |g.manifests| ==> g.manifests[k].document.Some?
  {
    if forall k :: 0 <= k < |g.manifests| ==> IsImageManifest(g.manifests[k]) {
      forall k | 0 <= k < |g.manifests|
        ensures g.manifests[k].document.Some?
        ensures g.manifests[k].descriptor.mediaType == "application/vnd.oci.image.manifest.v1+json"
      {
        assert IsImageManifest(g.manifests[k]);
      }
    }
  }

  // ---------------------------------------------------------------- the validator

  /** The map gives every digest its position in the list. */
  ghost predicate Indexes(at: map<string, nat>, ds: seq<Descriptor>) {
    && (forall k :: 0 <= k < |ds| ==> ds[k].digest in at && at[ds[k].digest] == k)
    && (forall digest :: digest in at ==> at[digest] < |ds| && ds[at[digest]].digest == digest)
  }

  /** Index a list by digest; a digest that occurs twice is refused. */
  method ByDigest(ds: seq<Descriptor>) returns (at: Option<map<string, nat>>)
    ensures at.Some? <==> DistinctDigests(ds)
    ensures at.Some? ==> Indexes(at.value, ds)
  {
    var found: map<string, nat> := map[];
    for k := 0 to |ds|
      invariant DistinctDigests(ds[..k])
      invariant forall i :: 0 <= i < k ==> ds[i].digest in found && found[ds[i].digest] == i
      invariant forall digest :: digest in found ==> found[digest] < k && ds[found[digest]].digest == digest
    {
      if ds[k].digest in found {
        assert ds[found[ds[k].digest]].digest == ds[k].digest;
        return None;
      }
      found := found[ds[k].digest := k];
    }
    assert ds[..|ds|] == ds;
    at := Some(found);
  }

  /** The layers of a manifest, looked up among the blobs and compared with the image's own. */
  method LayersMatch(g: Graph, layers: seq<Descriptor>, blobs: map<string, nat>) returns (matches: bool)
    requires Indexes(blobs, BlobDescriptors(g.blobs))
    ensures matches <==> LayersUnpack(g, layers)
  {
    var derived: seq<string> := [];
    for n := 0 to |layers|
      invariant |derived| == n
      invariant forall i :: 0 <= i < n ==>
                layers[i].digest in blobs && derived[i] == g.blobs[blobs[layers[i].digest]].diffId
    {
      if layers[n].digest !in blobs { return false; }
      derived := derived + [g.blobs[blobs[layers[n].digest]].diffId];
    }
    matches := derived == g.image.diffIds;
    if LayersUnpack(g, layers) {
      forall n | 0 <= n < |layers| ensures derived[n] == g.image.diffIds[n] {
        assert Unpacks(g, layers[n].digest, g.image.diffIds[n]);
        var k :| 0 <= k < |g.blobs| && g.blobs[k].descriptor.digest == layers[n].digest
          && g.blobs[k].diffId == g.image.diffIds[n];
        assert BlobDescriptors(g.blobs)[k].digest == layers[n].digest;
        assert blobs[layers[n].digest] == k;
      }
      assert derived == g.image.diffIds;
    }
    if matches {
      forall n | 0 <= n < |layers| ensures Unpacks(g, layers[n].digest, g.image.diffIds[n]) {
        var k := blobs[layers[n].digest];
        assert BlobDescriptors(g.blobs)[k].digest == layers[n].digest;
        assert g.blobs[k].descriptor.digest == layers[n].digest && g.blobs[k].diffId == g.image.diffIds[n];
      }
    }
  }

  /** Check every manifest, and collect what they refer to and whether one of them is the image's. */
  method CheckManifests(g: Graph, blobs: map<string, nat>, entries: map<string, nat>)
    returns (fit: bool, referred: set<Descriptor>, selected: bool)
    requires Indexes(blobs, BlobDescriptors(g.blobs))
    requires Indexes(entries, EntryDescriptors(g.index.entries))
    ensures fit <==> ManifestsFit(g)
    ensures fit ==> referred == AllReferences(g.manifests)
    ensures fit ==> (selected <==> exists k :: 0 <= k < |g.manifests| && IsSelected(g, g.manifests[k]))
  {
    hide SelectedFits, LayersUnpack, References;
    fit, referred, selected := true, {}, false;
    for n := 0 to |g.manifests|
      invariant fit && forall k :: 0 <= k < n ==>
                  IsImageManifest(g.manifests[k]) && (IsSelected(g, g.manifests[k]) ==> SelectedFits(g, g.manifests[k]))
      invariant referred == AllReferences(g.manifests[..n])
      invariant selected <==> exists k :: 0 <= k < n && IsSelected(g, g.manifests[k])
    {
      var m := g.manifests[n];
      if !IsImageManifest(m) { return false, {}, false; }
      if IsSelected(g, m) {
        var unpacks := LayersMatch(g, m.document.value.layers, blobs);
        SelectionDecided(g, m, entries);
        var digest := m.descriptor.digest;
        if !unpacks || m.document.value.config.mediaType != ConfigMediaType { return false, {}, false; }
        if digest !in entries { return false, {}, false; }
        if g.index.entries[entries[digest]].platform != Some(Target) { return false, {}, false; }
        selected := true;
      }
      referred := referred + References(m);
      assert g.manifests[..n + 1][..n] == g.manifests[..n];
    }
    assert g.manifests[..|g.manifests|] == g.manifests;
  }

  lemma SelectionDecided(g: Graph, m: Manifest, entries: map<string, nat>)
    requires m.document.Some? && Indexes(entries, EntryDescriptors(g.index.entries))
    ensures SelectedFits(g, m) <==>
              && LayersUnpack(g, m.document.value.layers)
              && m.document.value.config.mediaType == ConfigMediaType
              && m.descriptor.digest in entries
              && g.index.entries[entries[m.descriptor.digest]].platform == Some(Target)
  {
    var digest := m.descriptor.digest;
    if digest in entries {
      var k := entries[digest];
      assert EntryDescriptors(g.index.entries)[k].digest == digest;
      assert g.index.entries[k].descriptor.digest == digest;
    }
    if SelectedFits(g, m) {
      var k :| 0 <= k < |g.index.entries| && g.index.entries[k].descriptor.digest == digest
        && g.index.entries[k].platform == Some(Target);
      assert EntryDescriptors(g.index.entries)[k].digest == digest;
    }
  }

  /** Accept exactly the exact graphs. */
  method ValidateGraph(g: Graph) returns (accepted: bool)
    ensures accepted <==> Exact(g)
  {
    hide ManifestsFit, AllReferences, DistinctDigests, SetOf, Indexes;
    if g.blobs == [] || g.manifests == [] { return false; }
    if exists k :: 0 <= k < |g.blobs| && !g.blobs[k].sound { return false; }
    var blobs := ByDigest(BlobDescriptors(g.blobs));
    if blobs.None? { return false; }
    if exists k :: 0 <= k < |g.manifests| && !g.manifests[k].sound { return false; }
    var manifests := ByDigest(ManifestDescriptors(g.manifests));
    if manifests.None? { return false; }
    if g.index.schemaVersion != 2 || g.index.mediaType != IndexMediaType || g.index.entries == [] { return false; }
    var entries := ByDigest(EntryDescriptors(g.index.entries));
    if entries.None? { return false; }
    if SetOf(EntryDescriptors(g.index.entries)) != SetOf(ManifestDescriptors(g.manifests)) { return false; }
    accepted := CheckContents(g, blobs.value, entries.value);
  }

  method CheckContents(g: Graph, blobs: map<string, nat>, entries: map<string, nat>) returns (accepted: bool)
    requires Indexes(blobs, BlobDescriptors(g.blobs))
    requires Indexes(entries, EntryDescriptors(g.index.entries))
    ensures accepted <==>
              && ManifestsFit(g)
              && AllReferences(g.manifests) == SetOf(BlobDescriptors(g.blobs))
              && (exists k :: 0 <= k < |g.manifests| && IsSelected(g, g.manifests[k]))
              && (exists k :: 0 <= k < |g.blobs| && DescribesImage(g, g.blobs[k]))
  {
    var fit, referred, selected := CheckManifests(g, blobs, entries);
    if !fit { return false; }
    if referred != SetOf(BlobDescriptors(g.blobs)) || !selected { return false; }
    var digest := g.image.configDigest;
    if digest !in blobs { return false; }
    accepted := DescribesImage(g, g.blobs[blobs[digest]]);
  }
}

/** A published version never points into the void. */
module Integrity {
  import opened Outcomes
  import opened Checkpoints
  import opened Remotes
  import opened Publication
  import opened RegistryGraph

  /** The intent publishes the index of this graph and uploads exactly its manifests and blobs. */
  predicate Carries(i: Intent, g: Graph) {
    && i.image == Sealed(g.index.digest)
    && |i.manifests| == |g.manifests|
    && (forall k :: 0 <= k < |g.manifests| ==> i.manifests[k] == g.manifests[k].descriptor.digest)
    && |i.blobs| == |g.blobs|
    && (forall k :: 0 <= k < |g.blobs| ==> i.blobs[k] == g.blobs[k].descriptor.digest)
  }

  /** Every manifest the index lists is a manifest of the registry, and all they refer to are blobs of it. */
  ghost predicate Closed(g: Graph, r: Remote) {
    && (forall k :: 0 <= k < |g.index.entries| ==> g.index.entries[k].descriptor.digest in r.manifests)
    && (forall k, d :: 0 <= k < |g.manifests| && RefersTo(g.manifests[k], d) ==> d.digest in r.blobs)
  }

  /** Whenever the version tag is there, it names the index, and all that can be reached from there is there as well. */
  lemma {:induction false} PublishedIsClosed(i: Intent, g: Graph, r: Remote, d: Checkpoint)
    requires Exact(g) && Carries(i, g)
    requires Identity(i, d) && Consistent(i, r, d) && VersionTag in r.registry
    ensures r.DigestAt(VersionTag) == Some(Sealed(g.index.digest))
    ensures Closed(g, r)
  {
    PublicationIsOrdered(i, r, d);
    VersionPresent(i, r, d);
    hide Consistent, Identity, References, AllReferences, WellFormedLists, IndexListsManifests;
    forall k | 0 <= k < |g.index.entries| ensures g.index.entries[k].descriptor.digest in r.manifests {
      ListedIsHeld(g, g.index.entries[k].descriptor.digest);
      var n :| 0 <= n < |g.manifests| && g.manifests[n].descriptor.digest == g.index.entries[k].descriptor.digest;
      assert i.manifests[n] in r.manifests;
    }
    forall k, e | 0 <= k < |g.manifests| && RefersTo(g.manifests[k], e) ensures e.digest in r.blobs {
      ReferredIsBlob(g, e);
      var n :| 0 <= n < |g.blobs| && g.blobs[n].descriptor == e;
      assert i.blobs[n] in r.blobs;
    }
  }
}
