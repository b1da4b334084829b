/**
 `mp4Tracks` of packages/providers/src/media-upload.ts: a bounded recursive scan of an ISO base media file
 (section 4.2 of ISO/IEC 14496-12), against the box trees such a file is the serialization of.
 */
module Mp4Tracks {
  import opened Wrappers

  type Byte = b: int | 0 <= b < 256
  type Bytes = seq<Byte>

  datatype Handler = Soun | Vide

  const MAX_DEPTH := 5
  const MAX_BOXES := 2048

  // ----- four-character codes -----

  const FTYP: Bytes := [0x66, 0x74, 0x79, 0x70]
  const HDLR: Bytes := [0x68, 0x64, 0x6C, 0x72]
  // moov, trak, mdia
  const CONTAINERS: set<Bytes> := {[0x6D, 0x6F, 0x6F, 0x76], [0x74, 0x72, 0x61, 0x6B], [0x6D, 0x64, 0x69, 0x61]}

  function HandlerOf(code: Bytes): set<Handler> {
    if code == [0x73, 0x6F, 0x75, 0x6E] then {Soun} else if code == [0x76, 0x69, 0x64, 0x65] then {Vide} else {}
  }

  /** `isom`, `iso2`-`iso9`, `mp41`, `mp42`, `M4A`, `M4V`, `3gp4`-`3gp9`, `qt` and two spaces. */
  predicate Brand(b: Bytes)
    requires |b| >= 3
  {
    || (b[..3] == [0x69, 0x73, 0x6F] && |b| >= 4 && (b[3] == 0x6D || 0x32 <= b[3] <= 0x39))
    || (b[..3] == [0x6D, 0x70, 0x34] && |b| >= 4 && 0x31 <= b[3] <= 0x32)
    || b[..3] == [0x4D, 0x34, 0x41] || b[..3] == [0x4D, 0x34, 0x56]
    || (b[..3] == [0x33, 0x67, 0x70] && |b| >= 4 && 0x34 <= b[3] <= 0x39)
    || (b[..3] == [0x71, 0x74, 0x20] && |b| >= 4 && b[3] == 0x20)
  }

  predicate HasBrand(b: Bytes) {
    exists i | 0 <= i < |b| - 2 :: Brand(b[i..])
  }

  // ----- big-endian sizes -----

  function U32(b: Bytes): (n: nat)
    requires |b| == 4
    ensures n < 0x1_0000_0000
    ensures n == 16777216 * b[0] as int + 65536 * b[1] as int + 256 * b[2] as int + b[3] as int
  {
    (((b[0] as int) * 0x100 + b[1] as int) * 0x100 + b[2] as int) * 0x100 + b[3] as int
  }

  function U32Bytes(n: nat): (b: Bytes)
    requires n < 0x1_0000_0000
    ensures |b| == 4
    ensures U32(b) == n
  {
    var high := n / 0x100;
    var higher := high / 0x100;
    [higher / 0x100, higher % 0x100, high % 0x100, n % 0x100]
  }

  /** Sizes are read back as written, and only their own bytes read as them. */
  lemma U32BytesRoundTrip(b: Bytes)
    requires |b| == 4
    ensures U32Bytes(U32(b)) == b
  {
    var higher := (b[0] as int) * 0x100 + b[1] as int;
    var high := higher * 0x100 + b[2] as int;
    assert U32(b) / 0x100 == high && high / 0x100 == higher;
  }

  // ----- the scan -----

  /** What the scan shares across its recursive calls. */
  datatype Found = Found(count: nat, ftyp: bool, tracks: set<Handler>)

  /** Scans the boxes that fill `data[at..to]`. */
  function Scan(data: Bytes, at: nat, to: nat, depth: nat, found: Found): (bool, Found)
    requires at <= to <= |data| && depth <= MAX_DEPTH + 1
    decreases MAX_DEPTH + 1 - depth, to - at
  {
    if depth > MAX_DEPTH then (false, found)
    else if at == to then (true, found)
    else
      var counted := found.(count := found.count + 1);
      if counted.count > MAX_BOXES || at + 8 > to then (false, counted)
      else
        var size := U32(data[at..at + 4]);
        if size < 8 || at + size > to then (false, counted)
        else
          var (ok, inner) := ScanBox(data, at, size, depth, counted);
          if !ok then (false, inner) else Scan(data, at + size, to, depth, inner)
  }

  /** The box at `at`, whose size is known to fit. */
  function ScanBox(data: Bytes, at: nat, size: nat, depth: nat, found: Found): (bool, Found)
    requires 8 <= size && at + size <= |data| && depth <= MAX_DEPTH
    decreases MAX_DEPTH + 1 - depth, size - 1
  {
    var kind := data[at + 4..at + 8];
    if kind == FTYP then
      if depth != 0 || size < 20 || size > 256 || !HasBrand(data[at + 8..at + size]) then (false, found)
      else (true, found.(ftyp := true))
    else if kind in CONTAINERS then Scan(data, at + 8, at + size, depth + 1, found)
    else if kind == HDLR then
      if size < 32 then (false, found)
      else (true, found.(tracks := found.tracks + HandlerOf(data[at + 16..at + 20])))
    else (true, found)
  }

  function Tracks(data: Bytes): Option<set<Handler>> {
    var (ok, found) := Scan(data, 0, |data|, 0, Found(0, false, {}));
    if ok && found.ftyp && found.tracks != {} then Some(found.tracks) else None
  }

  /** The closure variables of the scan, updated in place across the recursion. */
  class Scanner {
    const data: Bytes
    var count: nat
    var ftyp: bool
    var tracks: set<Handler>

    constructor (data: Bytes)
      ensures this.data == data && View() == Found(0, false, {})
    {
      this.data := data;
      count, ftyp, tracks := 0, false, {};
    }

    function View(): Found
      reads this
    {
      Found(count, ftyp, tracks)
    }

    /** Every read is within bounds, and the recursion ends on every input. */
    method Parse(from: nat, to: nat, depth: nat) returns (ok: bool)
      requires from <= to <= |data| && depth <= MAX_DEPTH + 1
      modifies this
      ensures (ok, View()) == Scan(data, from, to, depth, old(View()))
      decreases MAX_DEPTH + 1 - depth
    {
      hide U32, HasBrand, HandlerOf;
      if depth > MAX_DEPTH { return false; }
      var at := from;
      while at < to
        invariant from <= at <= to
        invariant Scan(data, at, to, depth, View()) == Scan(data, from, to, depth, old(View()))
      {
        label Box:
        count := count + 1;
        if count > MAX_BOXES || at + 8 > to { return false; }
        var size := U32(data[at..at + 4]);
        if size < 8 || at + size > to { return false; }
        var kind := data[at + 4..at + 8];
        if kind == FTYP {
          if depth != 0 || size < 20 || size > 256 { return false; }
          if !HasBrand(data[at + 8..at + size]) { return false; }
          ftyp := true;
        }
        if kind in CONTAINERS {
          var inner := Parse(at + 8, at + size, depth + 1);
          if !inner { return false; }
        }
        if kind == HDLR {
          if size < 32 { return false; }
          tracks := tracks + HandlerOf(data[at + 16..at + 20]);
        }
        at := at + size;
      }
      return true;
    }
  }

  method FindTracks(data: Bytes) returns (tracks: Option<set<Handler>>)
    ensures tracks == Tracks(data)
  {
    var scanner := new Scanner(data);
    var ok := scanner.Parse(0, |data|, 0);
    return if ok && scanner.ftyp && scanner.tracks != {} then Some(scanner.tracks) else None;
  }

  // ----- box trees -----

  datatype Box = Leaf(kind: Bytes, payload: Bytes) | Container(kind: Bytes, children: seq<Box>)

  function Content(b: Box): Bytes
    decreases b, 0
  {
    match b
    case Leaf(_, payload) => payload
    case Container(_, children) => SerializeAll(children)
  }

  /** A box too large for its size field has no serialization. */
  function Serialize(b: Box): Bytes
    decreases b, 1
  {
    var size := 8 + |Content(b)|;
    if size < 0x1_0000_0000 then U32Bytes(size) + b.kind + Content(b) else []
  }

  function SerializeAll(boxes: seq<Box>): Bytes
    decreases boxes, 2
  {
    if boxes == [] then [] else Serialize(boxes[0]) + SerializeAll(boxes[1..])
  }

  /** The rules of one box, and of all those inside it. */
  predicate WellFormed(b: Box, depth: nat)
    decreases b
  {
    var size := 8 + |Content(b)|;
    && |b.kind| == 4 && size < 0x1_0000_0000
    && match b
       case Leaf(kind, payload) =>
         && kind !in CONTAINERS
         && (kind == FTYP ==> depth == 0 && 20 <= size <= 256 && HasBrand(payload))
         && (kind == HDLR ==> size >= 32)
       case Container(kind, children) =>
         kind in CONTAINERS && depth < 5 && forall c <- children :: WellFormed(c, depth + 1)
  }

  predicate AllWellFormed(boxes: seq<Box>, depth: nat) {
    forall b <- boxes :: WellFormed(b, depth)
  }

  function Count(boxes: seq<Box>): nat {
    if boxes == [] then 0
    else 1 + (if boxes[0].Container? then Count(boxes[0].children) else 0) + Count(boxes[1..])
  }

  function HasFtyp(boxes: seq<Box>): bool {
    exists b <- boxes :: b.Leaf? && b.kind == FTYP
  }

  /** The media handlers a forest names, at any depth. */
  function HandlersOf(boxes: seq<Box>): set<Handler> {
    if boxes == [] then {}
    else
      (match boxes[0]
       case Leaf(kind, payload) => if kind == HDLR && |payload| >= 12 then HandlerOf(payload[8..12]) else {}
       case Container(_, children) => HandlersOf(children))
      + HandlersOf(boxes[1..])
  }

  // ----- scanning what was serialized -----

  /** What scanning `boxes` adds to `found`. */
  function Merge(found: Found, boxes: seq<Box>): Found {
    Found(found.count + Count(boxes), found.ftyp || HasFtyp(boxes), found.tracks + HandlersOf(boxes))
  }

  /** `data[at..]` starts with the serialized box. */
  lemma HeaderReads(data: Bytes, at: nat, b: Box, depth: nat)
    requires WellFormed(b, depth) && at + |Serialize(b)| <= |data| && data[at..at + |Serialize(b)|] == Serialize(b)
    ensures var size := |Serialize(b)|;
      && size == 8 + |Content(b)|
      && U32(data[at..at + 4]) == size
      && data[at + 4..at + 8] == b.kind
      && data[at + 8..at + size] == Content(b)
  {
    var s := Serialize(b);
    var size := |s|;
    SliceOfSlice(data, at, at + size, 0, 4);
    SliceOfSlice(data, at, at + size, 4, 8);
    SliceOfSlice(data, at, at + size, 8, size);
    assert s[0..4] == U32Bytes(size) && s[4..8] == b.kind && s[8..size] == Content(b);
  }

  lemma MergeSplits(found: Found, b: Box, rest: seq<Box>)
    ensures Merge(found, [b] + rest) == Merge(Merge(found, [b]), rest)
  {
    assert ([b] + rest)[1..] == rest;
    assert Count([b]) + Count(rest) == Count([b] + rest);
    assert HandlersOf([b] + rest) == HandlersOf([b]) + HandlersOf(rest);
  }

  /** The first box of a serialized forest, and the rest. */
  lemma ForestSplits(data: Bytes, at: nat, to: nat, boxes: seq<Box>)
    requires at <= to <= |data| && boxes != [] && data[at..to] == SerializeAll(boxes)
    ensures at + |Serialize(boxes[0])| <= to
    ensures data[at..at + |Serialize(boxes[0])|] == Serialize(boxes[0])
    ensures data[at + |Serialize(boxes[0])|..to] == SerializeAll(boxes[1..])
  {
    var s := Serialize(boxes[0]);
    assert data[at..to] == s + SerializeAll(boxes[1..]);
    assert data[at..at + |s|] == data[at..to][..|s|];
    assert data[at + |s|..to] == data[at..to][|s|..];
  }

  /**
   A serialized forest is scanned to the end exactly when it keeps within the box limit, and yields its own contents.
   */
  lemma {:induction false} ScanReadsForest(data: Bytes, at: nat, to: nat, boxes: seq<Box>, depth: nat, found: Found)
    requires at <= to <= |data| && depth <= MAX_DEPTH && data[at..to] == SerializeAll(boxes)
    requires AllWellFormed(boxes, depth)
    requires found.count <= MAX_BOXES
    ensures Scan(data, at, to, depth, found).0 <==> found.count + Count(boxes) <= MAX_BOXES
    ensures Scan(data, at, to, depth, found).0 ==> Scan(data, at, to, depth, found).1 == Merge(found, boxes)
    decreases boxes
  {
    hide ScanBox, Serialize, U32, WellFormed, HandlersOf, HasFtyp;
    if boxes == [] {
      assert at == to;
      NothingMerges(found);
    } else {
      var b, rest := boxes[0], boxes[1..];
      assert boxes == [b] + rest;
      ForestSplits(data, at, to, boxes);
      HeaderReads(data, at, b, depth);
      MergeSplits(found, b, rest);
      var size := |Serialize(b)|;
      var counted := found.(count := found.count + 1);
      if counted.count <= MAX_BOXES {
        BoxIsRead(data, at, b, depth, counted);
        var (ok, inner) := ScanBox(data, at, size, depth, counted);
        if ok { ScanReadsForest(data, at + size, to, rest, depth, inner); }
      }
    }
  }

  lemma NothingMerges(found: Found)
    ensures Merge(found, []) == found
  {
  }

  lemma {:induction false} BoxIsRead(data: Bytes, at: nat, b: Box, depth: nat, found: Found)
    requires WellFormed(b, depth) && depth <= MAX_DEPTH && at + |Serialize(b)| <= |data|
    requires data[at..at + |Serialize(b)|] == Serialize(b) && 1 <= found.count <= MAX_BOXES
    ensures |Serialize(b)| >= 8
    ensures var (ok, inner) := ScanBox(data, at, |Serialize(b)|, depth, found);
      && (ok <==> found.count - 1 + Count([b]) <= MAX_BOXES)
      && (ok ==> inner == Merge(found.(count := found.count - 1), [b]))
    decreases b
  {
    hide Serialize, U32, HandlersOf, Count, HasFtyp, Content;
    HeaderReads(data, at, b, depth);
    OneBox(b);
    ContentOf(b);
    var size := |Serialize(b)|;
    match b {
      case Leaf(kind, payload) =>
        KindsDiffer();
        if kind == HDLR {
          SliceOfSlice(data, at + 8, at + size, 8, 12);
          assert data[at + 16..at + 20] == payload[8..12];
        }
      case Container(kind, children) =>
        ScanReadsForest(data, at + 8, at + size, children, depth + 1, found);
        NestedHasNoFtyp(children, depth + 1);
    }
  }

  lemma ContentOf(b: Box)
    ensures Content(b) == if b.Leaf? then b.payload else SerializeAll(b.children)
  {
  }

  /** What a single box contributes. */
  lemma OneBox(b: Box)
    ensures HasFtyp([b]) <==> b.Leaf? && b.kind == FTYP
    ensures match b
      case Leaf(kind, payload) =>
        Count([b]) == 1 && HandlersOf([b]) == if kind == HDLR && |payload| >= 12 then HandlerOf(payload[8..12]) else {}
      case Container(_, children) => Count([b]) == 1 + Count(children) && HandlersOf([b]) == HandlersOf(children)
  {
    assert [b][0] == b && [b][1..] == [];
  }

  lemma SliceOfSlice(data: Bytes, from: nat, to: nat, i: nat, j: nat)
    requires i <= j && from + j <= to <= |data|
    ensures data[from..to][i..j] == data[from + i..from + j]
  {
    var a, b := data[from..to][i..j], data[from + i..from + j];
    assert forall k | 0 <= k < j - i :: a[k] == b[k];
  }

  lemma NestedHasNoFtyp(boxes: seq<Box>, depth: nat)
    requires AllWellFormed(boxes, depth) && depth > 0
    ensures !HasFtyp(boxes)
  {
  }

  // ----- whatever is accepted was serialized -----

  lemma {:induction false} ForestOf(data: Bytes, at: nat, to: nat, depth: nat, found: Found) returns (boxes: seq<Box>)
    requires at <= to <= |data| && depth <= MAX_DEPTH + 1
    requires Scan(data, at, to, depth, found).0
    ensures depth <= MAX_DEPTH && AllWellFormed(boxes, depth) && SerializeAll(boxes) == data[at..to]
    decreases MAX_DEPTH + 1 - depth, to - at
  {
    hide ScanBox, WellFormed, Serialize, U32Bytes;
    if at == to {
      boxes := [];
    } else {
      var counted := found.(count := found.count + 1);
      var size := U32(data[at..at + 4]);
      var b := BoxOf(data, at, size, depth, counted);
      var rest := ForestOf(data, at + size, to, depth, ScanBox(data, at, size, depth, counted).1);
      boxes := [b] + rest;
      assert boxes[1..] == rest;
      assert data[at..to] == data[at..at + size] + data[at + size..to];
    }
  }

  lemma {:induction false} BoxOf(data: Bytes, at: nat, size: nat, depth: nat, found: Found) returns (b: Box)
    requires 8 <= size < 0x1_0000_0000 && at + size <= |data| && depth <= MAX_DEPTH && U32(data[at..at + 4]) == size
    requires ScanBox(data, at, size, depth, found).0
    ensures WellFormed(b, depth) && Serialize(b) == data[at..at + size]
    decreases MAX_DEPTH + 1 - depth, size - 1
  {
    var kind, content := data[at + 4..at + 8], data[at + 8..at + size];
    U32BytesRoundTrip(data[at..at + 4]);
    assert data[at..at + size] == data[at..at + 4] + kind + content;
    if kind in CONTAINERS {
      KindsDiffer();
      var children := ForestOf(data, at + 8, at + size, depth + 1, found);
      b := Container(kind, children);
    } else {
      b := Leaf(kind, content);
    }
  }

  lemma KindsDiffer()
    ensures FTYP !in CONTAINERS && HDLR !in CONTAINERS && FTYP != HDLR
  {
    assert FTYP[0] == 0x66 && HDLR[0] == 0x68;
    assert forall kind <- CONTAINERS :: kind[0] in {0x6D, 0x74};
  }

  // ----- the theorems -----

  /** The forests a media file may hold. */
  ghost predicate Acceptable(data: Bytes, boxes: seq<Box>) {
    AllWellFormed(boxes, 0) && SerializeAll(boxes) == data && Count(boxes) <= 2048
  }

  /** The scan accepts exactly the byte sequences that serialize a well-formed forest within the limits. */
  lemma ScanAcceptsIff(data: Bytes)
    ensures Scan(data, 0, |data|, 0, Found(0, false, {})).0 <==> exists boxes :: Acceptable(data, boxes)
  {
    var empty := Found(0, false, {});
    assert data[0..|data|] == data;
    if boxes :| Acceptable(data, boxes) { ScanReadsForest(data, 0, |data|, boxes, 0, empty); }
    if Scan(data, 0, |data|, 0, empty).0 {
      var boxes := ForestOf(data, 0, |data|, 0, empty);
      ScanReadsForest(data, 0, |data|, boxes, 0, empty);
      assert Acceptable(data, boxes);
    }
  }

  /** For every forest, the tracks found in its serialization are its own handlers. */
  lemma TracksOfSerialized(boxes: seq<Box>)
    requires AllWellFormed(boxes, 0)
    ensures Tracks(SerializeAll(boxes)) ==
      if Count(boxes) <= 2048 && HasFtyp(boxes) && HandlersOf(boxes) != {} then Some(HandlersOf(boxes)) else None
  {
    hide Scan, AllWellFormed, SerializeAll, Count, HasFtyp, HandlersOf;
    var data := SerializeAll(boxes);
    assert data[0..|data|] == data;
    ScanReadsForest(data, 0, |data|, boxes, 0, Found(0, false, {}));
    assert {} + HandlersOf(boxes) == HandlersOf(boxes);
  }

  /** Tracks are reported exactly for files with an `ftyp` box and some handler; never for anything else. */
  lemma TracksIff(data: Bytes, tracks: set<Handler>)
    ensures Tracks(data) == Some(tracks) <==>
      tracks != {} && exists boxes :: Acceptable(data, boxes) && HasFtyp(boxes) && HandlersOf(boxes) == tracks
  {
    hide Scan, AllWellFormed, SerializeAll, Count, HasFtyp, HandlersOf;
    var empty := Found(0, false, {});
    assert data[0..|data|] == data;
    if Tracks(data) == Some(tracks) {
      var boxes := ForestOf(data, 0, |data|, 0, empty);
      ScanReadsForest(data, 0, |data|, boxes, 0, empty);
      assert Acceptable(data, boxes) && HasFtyp(boxes) && HandlersOf(boxes) == tracks;
    }
    if boxes :| Acceptable(data, boxes) && HasFtyp(boxes) && HandlersOf(boxes) == tracks {
      TracksOfSerialized(boxes);
    }
  }
}
