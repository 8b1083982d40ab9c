/**
  The walk over an OCI archive's descriptor graph (scripts/verify_oci_attestations.py).

  Descriptors name blobs by digest, as section "OCI Content Descriptors" of the OCI Image
  Format Specification lays down; an image index lists further descriptors, so the graph may
  share blobs and may contain cycles.
 */
module Attestations {
  import opened Prelude

  datatype Json =
    | Null
    | Bool(b: bool)
    | Number(n: int)
    | Text(text: string)
    | Array(items: seq<Json>)
    | Object(fields: map<string, Json>)

  /** What a tar member yields to json.load. */
  datatype Member = Document(json: Json) | NotARegularFile | NotJson

  type Archive = map<string, Member>

  const ATTESTATION_TYPE := "application/vnd.docker.attestation.manifest.v1+json"
  const INDEX_TYPE := "application/vnd.oci.image.index.v1+json"
  const MANIFEST_TYPE := "application/vnd.oci.image.manifest.v1+json"
  const REQUIRED_PREDICATES: set<string> := {"https://spdx.dev/Document", "https://slsa.dev/provenance/v1"}
  const MAX_DESCRIPTORS: nat := 1024
  const PREDICATE_KEY := "in-toto.io/predicate-type"

  /** InvalidArchive for a defect, for the safety limit, or the TypeError of list(…). */
  datatype Verdict = Verified(predicates: set<string>) | Defective | TooManyDescriptors | NotIterable

  // ---------------------------------------------------------------- reading

  /** dict.get */
  function Get(fields: map<string, Json>, key: string, default: Json): Json {
    if key in fields then fields[key] else default
  }

  /** str(…) of a digest field; what is not a string never prints as a digest. */
  function AsText(j: Json): string {
    if j.Text? then j.text else ""
  }

  predicate HexDigit(c: char) { '0' <= c <= '9' || 'a' <= c <= 'f' }

  /** ^sha256:([0-9a-f]{64})$ */
  predicate ValidDigest(digest: string) {
    && |digest| == 71 && digest[..7] == "sha256:"
    && forall i :: 7 <= i < 71 ==> HexDigit(digest[i])
  }

  function BlobPath(digest: string): string
    requires |digest| >= 7
  {
    "blobs/sha256/" + digest[7..]
  }

  predicate Readable(a: Archive, path: string) {
    path in a && a[path].Document? && a[path].json.Object?
  }

  predicate HasDocument(a: Archive, digest: string) {
    ValidDigest(digest) && Readable(a, BlobPath(digest))
  }

  function DocumentOf(a: Archive, digest: string): map<string, Json>
    requires HasDocument(a, digest)
  {
    a[BlobPath(digest)].json.fields
  }

  datatype Kind = Index | Image | Attestation | Other

  function KindOf(doc: map<string, Json>): Kind {
    var mediaType := Get(doc, "mediaType", Null);
    if mediaType == Text(INDEX_TYPE) then Index
    else if mediaType != Text(MANIFEST_TYPE) then Other
    else if Get(doc, "artifactType", Null) != Text(ATTESTATION_TYPE) then Image
    else Attestation
  }

  function Items(j: Json): seq<Json> { if j.Array? then j.items else [] }

  function SubjectOf(doc: map<string, Json>): string {
    var subject := Get(doc, "subject", Object(map[]));
    if subject.Object? then AsText(Get(subject.fields, "digest", Text(""))) else ""
  }

  predicate AllObjects(items: seq<Json>) {
    forall i :: 0 <= i < |items| ==> items[i].Object?
  }

  /** The predicate type a layer announces. */
  function LayerPredicates(layer: Json): set<string> {
    if !layer.Object? then {}
    else
      var annotations := Get(layer.fields, "annotations", Object(map[]));
      if !annotations.Object? then {}
      else
        var predicateType := Get(annotations.fields, PREDICATE_KEY, Null);
        if predicateType.Text? then {predicateType.text} else {}
  }

  function LayersOf(doc: map<string, Json>): Json { Get(doc, "layers", Array([])) }

  function DocumentPredicates(doc: map<string, Json>): set<string> {
    set i, p | 0 <= i < |Items(LayersOf(doc))| && p in LayerPredicates(Items(LayersOf(doc))[i]) :: p
  }

  /** The shape the walk demands of a document, by kind. */
  predicate WellShaped(doc: map<string, Json>) {
    match KindOf(doc)
    case Index => Get(doc, "manifests", Array([])).Array?
    case Attestation =>
      && Get(doc, "subject", Object(map[])).Object? && ValidDigest(SubjectOf(doc))
      && LayersOf(doc).Array? && AllObjects(Items(LayersOf(doc)))
    case _ => true
  }

  function ChildrenOf(doc: map<string, Json>): seq<Json> {
    if KindOf(doc).Index? then Items(Get(doc, "manifests", Array([]))) else []
  }

  // ---------------------------------------------------------------- what a good archive is

  function Digest(descriptor: Json): string {
    if descriptor.Object? then AsText(Get(descriptor.fields, "digest", Text(""))) else ""
  }

  /** The descriptors an archive lists at digest d. */
  function Children(a: Archive, d: string): seq<Json> {
    if HasDocument(a, d) then ChildrenOf(DocumentOf(a, d)) else []
  }

  /** list(root.get("manifests", [])): a dict yields its keys and a string its characters. */
  datatype Listing = Listed(items: seq<Json>) | NotAList(empty: bool) | TypeError

  function RootListing(root: map<string, Json>): Listing {
    match Get(root, "manifests", Array([]))
    case Array(items) => Listed(items)
    case Object(fields) => NotAList(fields == map[])
    case Text(text) => NotAList(text == "")
    case _ => TypeError
  }

  function Roots(a: Archive): seq<Json> {
    if Readable(a, "index.json") && RootListing(a["index.json"].json.fields).Listed? then
      RootListing(a["index.json"].json.fields).items
    else []
  }

  /** Every descriptor named by the index or from within the set leads into the set. */
  ghost predicate Closed(a: Archive, s: set<string>) {
    && (forall i :: 0 <= i < |Roots(a)| && Roots(a)[i].Object? ==> Digest(Roots(a)[i]) in s)
    && (forall d, i :: d in s && 0 <= i < |Children(a, d)| && Children(a, d)[i].Object? ==> Digest(Children(a, d)[i]) in s)
  }

  /** The reachable digests: the least closed set. */
  ghost predicate IsReachableSet(a: Archive, s: set<string>) {
    Closed(a, s) && forall t: set<string> :: Closed(a, t) ==> s <= t
  }

  function Images(a: Archive, s: set<string>): set<string> {
    set d | d in s && HasDocument(a, d) && KindOf(DocumentOf(a, d)).Image?
  }

  predicate IsAttestation(a: Archive, d: string) {
    HasDocument(a, d) && KindOf(DocumentOf(a, d)).Attestation?
  }

  function Subjects(a: Archive, s: set<string>): set<string> {
    set d | d in s && IsAttestation(a, d) :: SubjectOf(DocumentOf(a, d))
  }

  function Predicates(a: Archive, s: set<string>): set<string> {
    set d, p | d in s && IsAttestation(a, d) && p in DocumentPredicates(DocumentOf(a, d)) :: p
  }

  predicate Sound(a: Archive, d: string) {
    HasDocument(a, d) && WellShaped(DocumentOf(a, d))
  }

  /** index.json is an object whose manifests are descriptors (or nothing). */
  predicate GoodIndex(a: Archive) {
    && Readable(a, "index.json")
    && match RootListing(a["index.json"].json.fields)
       case Listed(items) => AllObjects(items)
       case NotAList(empty) => empty
       case TypeError => false
  }

  /** Every reachable document is sound and lists objects only, every attestation is attached, and the required predicates are there. */
  ghost predicate GoodSet(a: Archive, s: set<string>) {
    && IsReachableSet(a, s) && (forall d :: d in s ==> Sound(a, d) && AllObjects(Children(a, d)))
    && Subjects(a, s) <= Images(a, s) && REQUIRED_PREDICATES <= Predicates(a, s)
  }

  ghost predicate Good(a: Archive) {
    GoodIndex(a) && exists s: set<string> :: GoodSet(a, s)
  }

  // ---------------------------------------------------------------- how large an archive is

  /** Descriptors listed by the documents of a set. */
  ghost function Weight(a: Archive, s: set<string>): nat
    decreases s
  {
    if s == {} then 0
    else
      var d :| d in s;
      |Children(a, d)| + Weight(a, s - {d})
  }

  lemma {:induction false} WeightOfInsert(a: Archive, s: set<string>, d: string)
    requires d in s
    ensures Weight(a, s) == |Children(a, d)| + Weight(a, s - {d})
    decreases s
  {
    var c :| c in s && Weight(a, s) == |Children(a, c)| + Weight(a, s - {c});
    if c != d {
      WeightOfInsert(a, s - {c}, d);
      WeightOfInsert(a, s - {d}, c);
      assert s - {c} - {d} == s - {d} - {c};
    }
  }

  lemma {:induction false} WeightIsMonotone(a: Archive, s: set<string>, t: set<string>)
    requires s <= t
    ensures Weight(a, s) <= Weight(a, t)
    decreases s
  {
    if s != {} {
      var d :| d in s;
      WeightOfInsert(a, s, d);
      WeightOfInsert(a, t, d);
      WeightIsMonotone(a, s - {d}, t - {d});
    }
  }

  /** All descriptors listed anywhere, counted as often as they are listed, are within the limit. */
  ghost predicate Small(a: Archive) {
    forall s: set<string> :: IsReachableSet(a, s) ==> |Roots(a)| + Weight(a, s) <= MAX_DESCRIPTORS
  }

  // ---------------------------------------------------------------- the walk

  /** Every pending descriptor is listed by the index or by a document already seen. */
  ghost predicate IsListed(a: Archive, seen: set<string>, p: Json) {
    p in Roots(a) || exists d :: d in seen && p in Children(a, d)
  }

  ghost predicate Covered(a: Archive, seen: set<string>, pending: seq<Json>, p: Json) {
    p in pending || (p.Object? && Digest(p) in seen)
  }

  /** Where the walk stands between two iterations. */
  ghost predicate Walking(a: Archive, seen: set<string>, pending: seq<Json>) {
    && (forall d :: d in seen ==> Sound(a, d))
    && (forall t: set<string> :: Closed(a, t) ==> seen <= t)
    && (forall i :: 0 <= i < |pending| ==> IsListed(a, seen, pending[i]))
    && (forall i :: 0 <= i < |Roots(a)| ==> Covered(a, seen, pending, Roots(a)[i]))
    && (forall d, i :: d in seen && 0 <= i < |Children(a, d)| ==> Covered(a, seen, pending, Children(a, d)[i]))
    && |seen| + |pending| <= |Roots(a)| + Weight(a, seen)
  }

  /** A listed descriptor of a good archive is an object, and its document is sound. */
  lemma ListedIsSound(a: Archive, seen: set<string>, pending: seq<Json>, p: Json)
    requires Walking(a, seen, pending) && IsListed(a, seen, p) && Good(a)
    ensures p.Object? && Sound(a, Digest(p))
  {
    var s: set<string> :| GoodSet(a, s);
    if p in Roots(a) {
      assert AllObjects(Roots(a));
    } else {
      var d :| d in seen && p in Children(a, d);
      assert d in s && AllObjects(Children(a, d));
    }
  }

  /** The walk is over: what was seen is exactly what is reachable, and all of it is sound. */
  lemma WalkIsComplete(a: Archive, seen: set<string>)
    requires Walking(a, seen, [])
    ensures IsReachableSet(a, seen) && AllObjects(Roots(a))
    ensures forall d :: d in seen ==> Sound(a, d) && AllObjects(Children(a, d))
  {
    forall i | 0 <= i < |Roots(a)| ensures Roots(a)[i].Object? && Digest(Roots(a)[i]) in seen {
      assert Covered(a, seen, [], Roots(a)[i]);
    }
    forall d, i | d in seen && 0 <= i < |Children(a, d)|
      ensures Children(a, d)[i].Object? && Digest(Children(a, d)[i]) in seen
    {
      assert Covered(a, seen, [], Children(a, d)[i]);
    }
  }

  /** The two last checks decide. */
  lemma LastChecksDecide(a: Archive, seen: set<string>)
    requires GoodIndex(a) && IsReachableSet(a, seen)
    requires forall d :: d in seen ==> Sound(a, d) && AllObjects(Children(a, d))
    ensures Good(a) <==> GoodSet(a, seen)
    ensures GoodSet(a, seen) <==> Subjects(a, seen) <= Images(a, seen) && REQUIRED_PREDICATES <= Predicates(a, seen)
  {
    hide Sound, Closed, Subjects, Images, Predicates, Children;
    if Good(a) {
      var s: set<string> :| GoodSet(a, s);
      assert s == seen;
    }
  }

  /** While a descriptor is pending, the walk has not outgrown what a small archive lists. */
  lemma LimitMeansLarge(a: Archive, seen: set<string>, pending: seq<Json>)
    requires Walking(a, seen, pending) && |seen| + |pending| > MAX_DESCRIPTORS
    ensures !Good(a) || !Small(a)
  {
    if Good(a) {
      var s: set<string> :| GoodSet(a, s);
      WeightIsMonotone(a, seen, s);
    }
  }

  /** Popping a descriptor whose digest was seen before. */
  lemma SkipKeepsWalking(a: Archive, seen: set<string>, pending: seq<Json>)
    requires pending != [] && Walking(a, seen, pending)
    requires var p := pending[|pending| - 1]; p.Object? && Digest(p) in seen
    ensures Walking(a, seen, pending[..|pending| - 1])
  {
    var rest := pending[..|pending| - 1];
    assert forall q :: q in pending ==> q in rest || q == pending[|pending| - 1];
  }

  predicate PopsNew(seen: set<string>, pending: seq<Json>) {
    pending != [] && pending[|pending| - 1].Object? && Digest(pending[|pending| - 1]) !in seen
  }

  function Popped(pending: seq<Json>): Json
    requires pending != []
  {
    pending[|pending| - 1]
  }

  /** The queue after the visit: the rest, then what the document lists. */
  function Pushed(a: Archive, pending: seq<Json>): seq<Json>
    requires pending != []
  {
    pending[..|pending| - 1] + Children(a, Digest(Popped(pending)))
  }

  lemma CoveredStays(a: Archive, seen: set<string>, pending: seq<Json>, q: Json)
    requires PopsNew(seen, pending) && Covered(a, seen, pending, q)
    ensures Covered(a, seen + {Digest(Popped(pending))}, Pushed(a, pending), q)
  {
    hide Children, Digest;
    var p, rest := Popped(pending), pending[..|pending| - 1];
    if q in pending && q != p {
      var i :| 0 <= i < |pending| && pending[i] == q;
      assert rest[i] == q && q in rest;
    }
  }

  lemma VisitCovers(a: Archive, seen: set<string>, pending: seq<Json>)
    requires PopsNew(seen, pending) && Walking(a, seen, pending)
    ensures var d := Digest(Popped(pending));
            && (forall i :: 0 <= i < |Roots(a)| ==> Covered(a, seen + {d}, Pushed(a, pending), Roots(a)[i]))
            && (forall e, i :: e in seen + {d} && 0 <= i < |Children(a, e)| ==> Covered(a, seen + {d}, Pushed(a, pending), Children(a, e)[i]))
  {
    hide Children, Digest, Roots, Covered;
    var d := Digest(Popped(pending));
    forall i | 0 <= i < |Roots(a)| ensures Covered(a, seen + {d}, Pushed(a, pending), Roots(a)[i]) {
      CoveredStays(a, seen, pending, Roots(a)[i]);
    }
    forall e, i | e in seen + {d} && 0 <= i < |Children(a, e)|
      ensures Covered(a, seen + {d}, Pushed(a, pending), Children(a, e)[i])
    {
      if e in seen {
        CoveredStays(a, seen, pending, Children(a, e)[i]);
      } else {
        CoveredAtOnce(a, seen + {d}, pending, i);
      }
    }
  }

  lemma CoveredAtOnce(a: Archive, seen: set<string>, pending: seq<Json>, i: nat)
    requires pending != [] && i < |Children(a, Digest(Popped(pending)))|
    ensures Covered(a, seen, Pushed(a, pending), Children(a, Digest(Popped(pending)))[i])
  {
    hide Children, Digest;
  }

  lemma VisitLists(a: Archive, seen: set<string>, pending: seq<Json>)
    requires PopsNew(seen, pending) && Walking(a, seen, pending)
    ensures forall i :: 0 <= i < |Pushed(a, pending)| ==> IsListed(a, seen + {Digest(Popped(pending))}, Pushed(a, pending)[i])
  {
    hide Children, Digest, Roots;
    var d, now := Digest(Popped(pending)), Pushed(a, pending);
    forall i | 0 <= i < |now| ensures IsListed(a, seen + {d}, now[i]) {
      if i < |pending| - 1 {
        assert IsListed(a, seen, pending[i]);
      } else {
        assert d in seen + {d} && now[i] in Children(a, d);
      }
    }
  }

  lemma VisitIsReachable(a: Archive, seen: set<string>, pending: seq<Json>, t: set<string>)
    requires PopsNew(seen, pending) && Walking(a, seen, pending) && Closed(a, t)
    ensures seen + {Digest(Popped(pending))} <= t
  {
    hide Children, Digest, Roots;
    var p := Popped(pending);
    assert IsListed(a, seen, p) && seen <= t;
  }

  /** Popping a new descriptor with a sound document and pushing what the document lists. */
  lemma VisitKeepsWalking(a: Archive, seen: set<string>, pending: seq<Json>)
    requires PopsNew(seen, pending) && Walking(a, seen, pending) && Sound(a, Digest(Popped(pending)))
    ensures Walking(a, seen + {Digest(Popped(pending))}, Pushed(a, pending))
  {
    hide Children, Digest, Roots, Covered, IsListed, Closed, Sound;
    var d := Digest(Popped(pending));
    var more := seen + {d};
    VisitCovers(a, seen, pending);
    VisitLists(a, seen, pending);
    forall t: set<string> | Closed(a, t) ensures more <= t {
      VisitIsReachable(a, seen, pending, t);
    }
    WeightOfInsert(a, more, d);
    assert more - {d} == seen;
  }

  lemma WalkStarts(a: Archive)
    ensures Walking(a, {}, Roots(a))
    ensures Images(a, {}) == {} && Subjects(a, {}) == {} && Predicates(a, {}) == {}
  {
  }

  lemma PendingIsSound(a: Archive, seen: set<string>, pending: seq<Json>)
    requires Walking(a, seen, pending) && pending != [] && Good(a)
    ensures var p := pending[|pending| - 1]; p.Object? && Sound(a, Digest(p))
  {
    ListedIsSound(a, seen, pending, pending[|pending| - 1]);
  }

  lemma SetsGrow(a: Archive, s: set<string>, d: string)
    requires HasDocument(a, d)
    ensures Images(a, s + {d}) == Images(a, s) + (if KindOf(DocumentOf(a, d)).Image? then {d} else {})
    ensures Subjects(a, s + {d}) == Subjects(a, s) + (if IsAttestation(a, d) then {SubjectOf(DocumentOf(a, d))} else {})
    ensures Predicates(a, s + {d})
            == Predicates(a, s) + (if IsAttestation(a, d) then DocumentPredicates(DocumentOf(a, d)) else {})
  {
    assert IsAttestation(a, d) ==> SubjectOf(DocumentOf(a, d)) in Subjects(a, s + {d});
  }

  /** One visit, in terms of the document visited. */
  lemma Visited(a: Archive, seen: set<string>, pending: seq<Json>)
    requires pending != [] && Walking(a, seen, pending) && pending[|pending| - 1].Object?
    requires Digest(pending[|pending| - 1]) !in seen && HasDocument(a, Digest(pending[|pending| - 1]))
    requires WellShaped(DocumentOf(a, Digest(pending[|pending| - 1])))
    ensures var d := Digest(pending[|pending| - 1]);
            var doc := DocumentOf(a, d);
            && Walking(a, seen + {d}, pending[..|pending| - 1] + ChildrenOf(doc))
            && Images(a, seen + {d}) == Images(a, seen) + (if KindOf(doc).Image? then {d} else {})
            && Subjects(a, seen + {d}) == Subjects(a, seen) + (if KindOf(doc).Attestation? then {SubjectOf(doc)} else {})
            && Predicates(a, seen + {d})
               == Predicates(a, seen) + (if KindOf(doc).Attestation? then DocumentPredicates(doc) else {})
  {
    SetsGrow(a, seen, Digest(pending[|pending| - 1]));
    VisitKeepsWalking(a, seen, pending);
  }

  /** A sound document is there and has its shape. */
  lemma SoundGives(a: Archive, d: string)
    ensures Sound(a, d) <==> HasDocument(a, d) && WellShaped(DocumentOf(a, d))
  {
  }

  /** The layer loop: false when a layer is not an object. */
  method CollectPredicates(doc: map<string, Json>) returns (ok: bool, predicates: set<string>)
    requires LayersOf(doc).Array?
    ensures ok <==> AllObjects(Items(LayersOf(doc)))
    ensures ok ==> predicates == DocumentPredicates(doc)
  {
    var layers := Items(LayersOf(doc));
    predicates := {};
    for i := 0 to |layers|
      invariant forall j :: 0 <= j < i ==> layers[j].Object?
      invariant predicates == set j, p | 0 <= j < i && p in LayerPredicates(layers[j]) :: p
    {
      if !layers[i].Object? {
        return false, {};
      }
      var annotations := Get(layers[i].fields, "annotations", Object(map[]));
      ghost var before := predicates;
      if annotations.Object? {
        var predicateType := Get(annotations.fields, PREDICATE_KEY, Null);
        if predicateType.Text? {
          predicates := predicates + {predicateType.text};
        }
      }
      assert predicates == before + LayerPredicates(layers[i]);
    }
    ok := true;
  }

  /** What the walk takes from one document: nothing when its shape is wrong. */
  method Inspect(doc: map<string, Json>) returns (ok: bool, children: seq<Json>, image: bool, subjects: set<string>, predicates: set<string>)
    ensures ok <==> WellShaped(doc)
    ensures ok ==> children == ChildrenOf(doc) && image == KindOf(doc).Image?
    ensures ok ==> subjects == (if KindOf(doc).Attestation? then {SubjectOf(doc)} else {})
    ensures ok ==> predicates == (if KindOf(doc).Attestation? then DocumentPredicates(doc) else {})
  {
    ok, children, image, subjects, predicates := true, [], false, {}, {};
    match KindOf(doc) {
      case Index =>
        ok := Get(doc, "manifests", Array([])).Array?;
        children := ChildrenOf(doc);
      case Other =>
      case Image =>
        image := true;
      case Attestation =>
        if !Get(doc, "subject", Object(map[])).Object? || !ValidDigest(SubjectOf(doc)) || !LayersOf(doc).Array? {
          ok := false;
        } else {
          subjects := {SubjectOf(doc)};
          ok, predicates := CollectPredicates(doc);
        }
    }
  }

  /** index.json and list(root.get("manifests", [])). */
  method Open(a: Archive) returns (failure: Option<Verdict>, pending: seq<Json>)
    ensures failure.Some? ==> !Good(a) && (failure.value.Defective? || failure.value.NotIterable?)
    ensures failure.None? ==> pending == Roots(a) && (GoodIndex(a) <==> AllObjects(Roots(a)))
  {
    pending := [];
    if !Readable(a, "index.json") {
      return Some(Defective), [];
    }
    match RootListing(a["index.json"].json.fields) {
      case TypeError => failure := Some(NotIterable);
      case Listed(items) => failure, pending := None, items;
      case NotAList(empty) => failure := if empty then None else Some(Defective);
    }
  }

  /**
    _verify_archive. It terminates on every archive, cyclic or shared; it accepts only good
    archives, and then returns exactly the predicate types of the reachable attestations; it
    calls an archive defective only if it is; and it gives up only on archives that list more
    descriptors than the limit.
   */
  method VerifyArchive(a: Archive) returns (v: Verdict)
    ensures v.Verified? ==> Good(a)
    ensures v.Verified? ==> exists s: set<string> :: GoodSet(a, s) && v.predicates == Predicates(a, s)
    ensures v.Defective? || v.NotIterable? ==> !Good(a)
    ensures v.TooManyDescriptors? ==> !Good(a) || !Small(a)
    ensures Small(a) ==> (v.Verified? <==> Good(a))
  {
    hide *;
    var failure, pending := Open(a);
    if failure.Some? {
      return failure.value;
    }
    var seen, images, subjects, predicates := {}, {}, {}, {};
    WalkStarts(a);
    while pending != []
      invariant Walking(a, seen, pending)
      invariant images == Images(a, seen) && subjects == Subjects(a, seen) && predicates == Predicates(a, seen)
      decreases MAX_DESCRIPTORS - |seen|, |pending|
    {
      if |seen| + |pending| > MAX_DESCRIPTORS {
        LimitMeansLarge(a, seen, pending);
        return TooManyDescriptors;
      }
      var descriptor := pending[|pending| - 1];
      if Good(a) {
        PendingIsSound(a, seen, pending);
        SoundGives(a, Digest(descriptor));
      }
      if !descriptor.Object? {
        return Defective;
      }
      var digest := Digest(descriptor);
      if digest in seen {
        SkipKeepsWalking(a, seen, pending);
        pending := pending[..|pending| - 1];
        continue;
      }
      if !HasDocument(a, digest) {
        return Defective;
      }
      var ok, children, image, subject, found := Inspect(DocumentOf(a, digest));
      if !ok {
        return Defective;
      }
      Visited(a, seen, pending);
      seen := seen + {digest};
      images := images + (if image then {digest} else {});
      subjects, predicates := subjects + subject, predicates + found;
      pending := pending[..|pending| - 1] + children;
    }
    WalkIsComplete(a, seen);
    LastChecksDecide(a, seen);
    if !(subjects <= images) || !(REQUIRED_PREDICATES <= predicates) {
      return Defective;
    }
    v := Verified(predicates);
  }
}
