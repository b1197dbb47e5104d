/** Reading a Sponge schematic (`_schematic_cells`): the variable-length palette
    indices of BlockData and the order of the cells, after the Sponge Schematic
    Specification version 2, section "Schematic Object", field BlockData. */
module SchematicCells {
  import opened Positions

  type Byte = b: nat | b < 256

  datatype Error = Unsupported | BadDimensions | BadPaletteIndex | BadBlockData | NotInPalette

  datatype Result<+T> = Ok(value: T) | Err(error: Error)

  // -- palette indices -----------------------------------------------------------------------------

  /** How many bytes from the start announce another byte. */
  function Continued(data: seq<Byte>): (n: nat)
    ensures n <= |data| && (forall i :: 0 <= i < n ==> data[i] >= 128) && (n < |data| ==> data[n] < 128)
  {
    if data == [] || data[0] < 128 then 0 else 1 + Continued(data[1..])
  }

  /** Seven bits a byte, the lowest first. */
  function GroupValue(group: seq<Byte>): nat {
    if group == [] then 0 else group[0] % 128 + 128 * GroupValue(group[1..])
  }

  /** The indices of a stream of groups, each of at most five bytes. */
  function Decoded(data: seq<Byte>): Result<seq<nat>> {
    if data == [] then Ok([])
    else
      var n := Continued(data);
      if n > 4 then Err(BadPaletteIndex)
      else if n == |data| then Err(BadBlockData)
      else Prepended([GroupValue(data[..n + 1])], Decoded(data[n + 1..]))
  }

  function Prepended(indices: seq<nat>, rest: Result<seq<nat>>): Result<seq<nat>> {
    match rest
    case Ok(more) => Ok(indices + more)
    case Err(_) => rest
  }

  /** `n << shift`. */
  function Shifted(n: nat, shift: nat): nat {
    if shift == 0 then n else 2 * Shifted(n, shift - 1)
  }

  lemma SevenBits(n: nat, shift: nat)
    ensures Shifted(n, shift + 7) == 128 * Shifted(n, shift)
  {
    assert Shifted(n, shift + 7) == 2 * Shifted(n, shift + 6) == 4 * Shifted(n, shift + 5) == 8 * Shifted(n, shift + 4);
    assert Shifted(n, shift + 4) == 2 * Shifted(n, shift + 3) == 4 * Shifted(n, shift + 2) == 8 * Shifted(n, shift + 1);
  }

  lemma {:induction false} GroupGrows(group: seq<Byte>, b: Byte)
    ensures GroupValue(group + [b]) == GroupValue(group) + Shifted(b % 128, 7 * |group|)
  {
    if group == [] {
      assert [b][1..] == [];
    } else {
      var rest := group[1..];
      assert (group + [b])[1..] == rest + [b];
      GroupGrows(rest, b);
      SevenBits(b % 128, 7 * |rest|);
    }
  }

  lemma ContinuedBy(data: seq<Byte>, n: nat)
    requires n <= |data| && (forall i :: 0 <= i < n ==> data[i] >= 128)
    ensures Continued(data) >= n
    ensures n < |data| && data[n] < 128 ==> Continued(data) == n
  {
  }

  lemma PrependNothing(rest: Result<seq<nat>>)
    ensures Prepended([], rest) == rest
  {
    if rest.Ok? {
      assert [] + rest.value == rest.value;
    }
  }

  lemma PrependTwice(a: seq<nat>, b: seq<nat>, rest: Result<seq<nat>>)
    ensures Prepended(a, Prepended(b, rest)) == Prepended(a + b, rest)
  {
    if rest.Ok? {
      assert a + (b + rest.value) == a + b + rest.value;
    }
  }

  /** What reading on comes to, in the middle of a group. */
  function Scanned(rest: seq<Byte>, indices: seq<nat>, value: nat, shift: nat): Result<seq<nat>> {
    if rest == [] then if shift != 0 then Err(BadBlockData) else Ok(indices)
    else
      var sum := value + Shifted(rest[0] % 128, shift);
      if rest[0] < 128 then Scanned(rest[1..], indices + [sum], 0, 0)
      else if shift + 7 > 28 then Err(BadPaletteIndex)
      else Scanned(rest[1..], indices, sum, shift + 7)
  }

  /** At most four continued bytes: a group under way. */
  predicate Open(group: seq<Byte>) {
    |group| <= 4 && forall i :: 0 <= i < |group| ==> group[i] >= 128
  }

  lemma GroupEnds(group: seq<Byte>, b: Byte, rest: seq<Byte>)
    requires Open(group) && b < 128
    ensures Decoded(group + [b] + rest) == Prepended([GroupValue(group + [b])], Decoded(rest))
  {
    var data := group + [b] + rest;
    ContinuedBy(data, |group|);
    assert data[..|group| + 1] == group + [b] && data[|group| + 1..] == rest;
  }

  lemma GroupOverruns(group: seq<Byte>, b: Byte, rest: seq<Byte>)
    requires Open(group) && |group| == 4 && b >= 128
    ensures Decoded(group + [b] + rest) == Err(BadPaletteIndex)
  {
    ContinuedBy(group + [b] + rest, 5);
  }

  lemma GroupIsCut(group: seq<Byte>)
    requires Open(group) && group != []
    ensures Decoded(group) == Err(BadBlockData)
  {
    ContinuedBy(group, |group|);
  }

  lemma Regrouped(group: seq<Byte>, rest: seq<Byte>)
    requires rest != []
    ensures group + rest == group + [rest[0]] + rest[1..]
  {
  }

  /** Each case of one byte, on what is left after it. */
  lemma ScanEndsGroup(group: seq<Byte>, rest: seq<Byte>, indices: seq<nat>)
    requires Open(group) && rest != [] && rest[0] < 128
    ensures Scanned(rest, indices, GroupValue(group), 7 * |group|)
            == Scanned(rest[1..], indices + [GroupValue(group + [rest[0]])], 0, 0)
  {
    GroupGrows(group, rest[0]);
  }

  lemma DecodeEndsGroup(group: seq<Byte>, b: Byte, more: seq<Byte>, indices: seq<nat>)
    requires Open(group) && b < 128
    ensures Prepended(indices, Decoded(group + [b] + more))
            == Prepended(indices + [GroupValue(group + [b])], Decoded(more))
  {
    GroupEnds(group, b, more);
    PrependTwice(indices, [GroupValue(group + [b])], Decoded(more));
  }

  lemma ScanGoesOn(group: seq<Byte>, rest: seq<Byte>, indices: seq<nat>)
    requires Open(group) && |group| < 4 && rest != [] && rest[0] >= 128
    ensures var longer := group + [rest[0]];
            && Open(longer)
            && Scanned(rest, indices, GroupValue(group), 7 * |group|)
               == Scanned(rest[1..], indices, GroupValue(longer), 7 * |longer|)
            && group + rest == longer + rest[1..]
  {
    GroupGrows(group, rest[0]);
    Regrouped(group, rest);
  }

  lemma ScanOverruns(group: seq<Byte>, rest: seq<Byte>, indices: seq<nat>)
    requires Open(group) && |group| == 4 && rest != [] && rest[0] >= 128
    ensures Scanned(rest, indices, GroupValue(group), 7 * |group|) == Prepended(indices, Decoded(group + rest))
  {
    Regrouped(group, rest);
    GroupOverruns(group, rest[0], rest[1..]);
  }

  lemma ScanStops(group: seq<Byte>, indices: seq<nat>)
    requires Open(group)
    ensures Scanned([], indices, GroupValue(group), 7 * |group|) == Prepended(indices, Decoded(group + []))
  {
    assert group + [] == group && indices + [] == indices;
    if group != [] {
      GroupIsCut(group);
    }
  }

  lemma {:induction false} ScanDecodes(group: seq<Byte>, rest: seq<Byte>, indices: seq<nat>)
    requires Open(group)
    ensures Scanned(rest, indices, GroupValue(group), 7 * |group|) == Prepended(indices, Decoded(group + rest))
    decreases |rest|
  {
    if rest == [] {
      ScanStops(group, indices);
    } else if rest[0] < 128 {
      ScanEndsGroup(group, rest, indices);
      Regrouped(group, rest);
      DecodeEndsGroup(group, rest[0], rest[1..], indices);
      ScanDecodes([], rest[1..], indices + [GroupValue(group + [rest[0]])]);
      assert [] + rest[1..] == rest[1..];
    } else if |group| == 4 {
      ScanOverruns(group, rest, indices);
    } else {
      ScanGoesOn(group, rest, indices);
      ScanDecodes(group + [rest[0]], rest[1..], indices);
    }
  }

  lemma ScansFromStart(data: seq<Byte>)
    ensures Scanned(data, [], 0, 0) == Decoded(data)
  {
    ScanDecodes([], data, []);
    PrependNothing(Decoded(data));
    assert [] + data == data;
  }

  /** The loop over the bytes, which keeps only the group under way. */
  method DecodeIndices(data: seq<Byte>) returns (r: Result<seq<nat>>)
    ensures r == Decoded(data)
  {
    var indices: seq<nat> := [];
    var value: nat, shift: nat := 0, 0;
    var rest := data;
    ScansFromStart(data);
    while rest != []
      invariant Scanned(rest, indices, value, shift) == Decoded(data)
      decreases |rest|
    {
      value := value + Shifted(rest[0] % 128, shift);
      if rest[0] >= 128 {
        shift := shift + 7;
        if shift > 28 {
          return Err(BadPaletteIndex);
        }
      } else {
        indices := indices + [value];
        value, shift := 0, 0;
      }
      rest := rest[1..];
    }
    return if shift != 0 then Err(BadBlockData) else Ok(indices);
  }

  // -- round trip ---------------------------------------------------------------------------------------

  const LIMIT: nat := 0x8_0000_0000  // 2^35

  /** The shortest group for an index. */
  function Encoded(n: nat): (r: seq<Byte>)
    ensures r != []
  {
    if n < 128 then [n] else [n % 128 + 128] + Encoded(n / 128)
  }

  function EncodedAll(indices: seq<nat>): seq<Byte> {
    if indices == [] then [] else Encoded(indices[0]) + EncodedAll(indices[1..])
  }

  lemma {:induction false} EncodedIsAGroup(n: nat)
    ensures var g := Encoded(n);
            && g[|g| - 1] < 128 && (forall i :: 0 <= i < |g| - 1 ==> g[i] >= 128)
            && GroupValue(g) == n
  {
    if n >= 128 {
      EncodedIsAGroup(n / 128);
      assert Encoded(n)[1..] == Encoded(n / 128);
    } else {
      assert [n][1..] == [];
    }
  }

  lemma {:induction false} EncodedLength(n: nat, k: nat, bound: nat)
    requires bound == Shifted(1, 7 * k) && k > 0
    ensures |Encoded(n)| <= k <==> n < bound
    decreases k
  {
    SevenBits(1, 7 * (k - 1));
    if k == 1 {
      assert Shifted(1, 0) == 1;
    } else if n < 128 {
      ShiftedAtLeast(7 * (k - 1));
    } else {
      EncodedLength(n / 128, k - 1, Shifted(1, 7 * (k - 1)));
    }
  }

  lemma {:induction false} ShiftedAtLeast(shift: nat)
    ensures Shifted(1, shift) >= 1
  {
    if shift > 0 {
      ShiftedAtLeast(shift - 1);
    }
  }

  lemma LimitIsFiveBytes(n: nat)
    ensures |Encoded(n)| <= 5 <==> n < LIMIT
  {
    SevenBits(1, 0);
    SevenBits(1, 7);
    SevenBits(1, 14);
    SevenBits(1, 21);
    SevenBits(1, 28);
    EncodedLength(n, 5, Shifted(1, 35));
  }

  /** Decoding an encoded index before anything else. */
  lemma DecodesOne(n: nat, rest: seq<Byte>)
    ensures Decoded(Encoded(n) + rest) == if n < LIMIT then Prepended([n], Decoded(rest)) else Err(BadPaletteIndex)
  {
    var (g, data) := (Encoded(n), Encoded(n) + rest);
    EncodedIsAGroup(n);
    LimitIsFiveBytes(n);
    ContinuedBy(data, |g| - 1);
    assert data[..|g|] == g && data[|g|..] == rest;
  }

  predicate AllFit(indices: seq<nat>) {
    forall i :: 0 <= i < |indices| ==> indices[i] < LIMIT
  }

  lemma FitSplits(indices: seq<nat>)
    requires indices != []
    ensures AllFit(indices) <==> indices[0] < LIMIT && AllFit(indices[1..])
  {
    if indices[0] < LIMIT && AllFit(indices[1..]) {
      assert forall i :: 0 < i < |indices| ==> indices[i] == indices[1..][i - 1];
    }
  }

  /** Decoding the concatenated groups gives back exactly the indices -- if and only if
      every one fits 35 bits. */
  lemma {:induction false} RoundTripIff(indices: seq<nat>)
    ensures Decoded(EncodedAll(indices)) == (if AllFit(indices) then Ok(indices) else Err(BadPaletteIndex))
  {
    if indices != [] {
      RoundTripIff(indices[1..]);
      DecodesOne(indices[0], EncodedAll(indices[1..]));
      FitSplits(indices);
      assert indices == [indices[0]] + indices[1..];
    }
  }

  lemma CutGroupIsRejected(n: nat, cut: nat)
    requires 0 < cut < |Encoded(n)|
    ensures Decoded(Encoded(n)[..cut]).Err?
  {
    EncodedIsAGroup(n);
    ContinuedBy(Encoded(n)[..cut], cut);
  }

  lemma {:induction false} BadTailIsRejected(indices: seq<nat>, tail: seq<Byte>)
    requires Decoded(tail).Err?
    ensures Decoded(EncodedAll(indices) + tail).Err?
  {
    if indices == [] {
      assert EncodedAll(indices) + tail == tail;
    } else {
      BadTailIsRejected(indices[1..], tail);
      DecodesOne(indices[0], EncodedAll(indices[1..]) + tail);
      Reassociate(Encoded(indices[0]), EncodedAll(indices[1..]), tail);
    }
  }

  lemma Reassociate(a: seq<Byte>, b: seq<Byte>, c: seq<Byte>)
    ensures a + b + c == a + (b + c)
  {
  }

  /** A stream that ends inside a group is rejected, wherever the cut is. */
  lemma TruncationIsRejected(indices: seq<nat>, n: nat, cut: nat)
    requires 0 < cut < |Encoded(n)|
    ensures Decoded(EncodedAll(indices) + Encoded(n)[..cut]).Err?
  {
    CutGroupIsRejected(n, cut);
    BadTailIsRejected(indices, Encoded(n)[..cut]);
  }

  // -- cells -----------------------------------------------------------------------------------------------

  datatype Cell = Cell(pos: Pos, block: string)

  datatype Size = Size(width: nat, height: nat, length: nat) {
    predicate Valid() { width > 0 && height > 0 && length > 0 }

    function Volume(): nat { width * height * length }

    predicate Holds(p: Pos) { 0 <= p.x < width && 0 <= p.y < height && 0 <= p.z < length }
  }

  /** Where the i-th index goes, from the corner of the box. */
  function PosAt(s: Size, i: nat): Pos
    requires s.Valid()
  {
    LayerPositive(s);
    Pos(i % s.width, i / (s.width * s.length), i / s.width % s.length)
  }

  function IndexOf(s: Size, p: Pos): int {
    p.x + p.z * s.width + p.y * (s.width * s.length)
  }

  lemma LayerPositive(s: Size)
    requires s.Valid()
    ensures s.width * s.length > 0
  {
  }

  lemma DivisionIsUnique(n: int, d: int, q: int, r: int)
    requires d > 0 && n == d * q + r && 0 <= r < d
    ensures n / d == q && n % d == r
  {
    if n / d > q {
      ProductGrows(d, q + 1, n / d);
    } else if n / d < q {
      ProductGrows(d, n / d + 1, q);
    }
  }

  lemma ProductGrows(d: int, a: int, b: int)
    requires d > 0 && a <= b
    ensures d * a <= d * b
  {
  }

  /** A remainder of rows and a remainder in a row make one in the layer. */
  lemma RowsFit(w: int, l: int, x: int, z: int)
    requires 0 <= x < w && 0 <= z < l
    ensures 0 <= x + z * w < w * l
  {
    ProductGrows(w, z + 1, l);
    assert w * (z + 1) == z * w + w;
    ProductGrows(w, 0, z);
  }

  lemma LayersFit(s: Size, p: Pos)
    requires s.Holds(p)
    ensures 0 <= IndexOf(s, p) < s.Volume()
  {
    RowsFit(s.width, s.length, p.x, p.z);
    var layer := s.width * s.length;
    RowsFit(layer, s.height, p.x + p.z * s.width, p.y);
    assert layer * s.height == s.Volume() by { Regroup(s.width, s.length, s.height); }
  }

  lemma Regroup(a: int, b: int, c: int)
    ensures a * b * c == a * c * b
  {
  }

  /** From position to index and back. */
  lemma PositionComesBack(s: Size, p: Pos)
    requires s.Holds(p)
    ensures 0 <= IndexOf(s, p) < s.Volume() && PosAt(s, IndexOf(s, p)) == p
  {
    LayersFit(s, p);
    var (i, layer) := (IndexOf(s, p), s.width * s.length);
    RowsFit(s.width, s.length, p.x, p.z);
    DivisionIsUnique(i, layer, p.y, p.x + p.z * s.width);
    var rows := p.z + p.y * s.length;
    assert i == s.width * rows + p.x by { Distribute(s.width, s.length, p.y, p.z); }
    DivisionIsUnique(i, s.width, rows, p.x);
    DivisionIsUnique(rows, s.length, p.y, p.z);
  }

  lemma Distribute(w: int, l: int, y: int, z: int)
    ensures w * (z + y * l) == z * w + y * (w * l)
  {
    assert w * (y * l) == y * (w * l);
  }

  lemma LayerOfAnIndex(s: Size, i: nat)
    requires s.Valid() && i < s.Volume()
    ensures s.width * s.length > 0 && i / (s.width * s.length) < s.height
  {
    LayerPositive(s);
    var layer := s.width * s.length;
    Regroup(s.width, s.length, s.height);
    if i / layer >= s.height {
      ProductGrows(layer, s.height, i / layer);
    }
  }

  /** An index is its place in the row, its row in the layer and its layer. */
  lemma IndexParts(w: int, l: int, i: int, rows: int, x: int, y: int, z: int)
    requires 0 <= x < w && 0 <= z < l && i == w * rows + x && rows == l * y + z
    ensures w * l > 0 && i / (w * l) == y && i == x + z * w + y * (w * l)
  {
    RowsFit(w, l, x, z);
    Distribute(w, l, y, z);
    assert l * y == y * l;
    DivisionIsUnique(i, w * l, y, x + z * w);
  }

  /** From index to position and back. */
  lemma IndexComesBack(s: Size, i: nat)
    requires s.Valid() && i < s.Volume()
    ensures s.Holds(PosAt(s, i)) && IndexOf(s, PosAt(s, i)) == i
  {
    var rows := i / s.width;
    IndexParts(s.width, s.length, i, rows, i % s.width, rows / s.length, rows % s.length);
    LayerOfAnIndex(s, i);
  }

  // -- the whole file --------------------------------------------------------------------------------------

  /** The parts of the file that are read. */
  datatype Document = Document(version: int, offset: seq<int>, width: int, height: int, length: int,
                               palette: map<int, string>, blockData: seq<int>)

  /** Signed NBT bytes as unsigned ones. */
  function Bytes(values: seq<int>): (r: seq<Byte>)
    ensures |r| == |values|
  {
    seq(|values|, i requires 0 <= i < |values| => values[i] % 256)
  }

  function Moved(p: Pos, origin: Pos): Pos {
    Pos(origin.x + p.x, origin.y + p.y, origin.z + p.z)
  }

  predicate AllInPalette(indices: seq<nat>, palette: map<int, string>) {
    forall i :: 0 <= i < |indices| ==> indices[i] in palette
  }

  function Placed(s: Size, palette: map<int, string>, origin: Pos, indices: seq<nat>): (r: seq<Cell>)
    requires s.Valid() && AllInPalette(indices, palette)
    ensures |r| == |indices|
    ensures forall i :: 0 <= i < |r| ==> r[i] == Cell(Moved(PosAt(s, i), origin), palette[indices[i]])
  {
    seq(|indices|, i requires 0 <= i < |indices| => Cell(Moved(PosAt(s, i), origin), palette[indices[i]]))
  }

  /** What a file reads as: its cells, or the first complaint. */
  function CellsOf(doc: Document, origin: Pos): Result<seq<Cell>> {
    if doc.version != 2 || exists v :: v in doc.offset && v != 0 then Err(Unsupported)
    else if doc.width < 1 || doc.height < 1 || doc.length < 1 then Err(BadDimensions)
    else
      match Decoded(Bytes(doc.blockData))
      case Err(e) => Err(e)
      case Ok(indices) =>
        var s := Size(doc.width, doc.height, doc.length);
        if |indices| != s.Volume() then Err(BadBlockData)
        else if !AllInPalette(indices, doc.palette) then Err(NotInPalette)
        else Ok(Placed(s, doc.palette, origin, indices))
  }

  method ReadSchematic(doc: Document, origin: Pos) returns (r: Result<seq<Cell>>)
    ensures r == CellsOf(doc, origin)
  {
    if doc.version != 2 || exists v :: v in doc.offset && v != 0 {
      return Err(Unsupported);
    }
    if doc.width < 1 || doc.height < 1 || doc.length < 1 {
      return Err(BadDimensions);
    }
    var s := Size(doc.width, doc.height, doc.length);
    var decoded := DecodeIndices(Bytes(doc.blockData));
    if decoded.Err? {
      return Err(decoded.error);
    }
    if |decoded.value| != s.Volume() {
      return Err(BadBlockData);
    }
    if !AllInPalette(decoded.value, doc.palette) {
      return Err(NotInPalette);
    }
    return Ok(Placed(s, doc.palette, origin, decoded.value));
  }

  /** Which files are read, and what the others are refused for first. */
  lemma ReadsIff(doc: Document, origin: Pos)
    ensures var r := CellsOf(doc, origin);
            var supported := doc.version == 2 && forall v :: v in doc.offset ==> v == 0;
            var sized := doc.width >= 1 && doc.height >= 1 && doc.length >= 1;
            var indices := Decoded(Bytes(doc.blockData));
            && (r == Err(Unsupported) <==> !supported)
            && (r == Err(BadDimensions) <==> supported && !sized)
            && (supported && sized && indices.Err? ==> r == Err(indices.error))
            && (supported && sized && indices.Ok? && |indices.value| != doc.width * doc.height * doc.length ==>
                  r == Err(BadBlockData))
            && (supported && sized && indices.Ok? && |indices.value| == doc.width * doc.height * doc.length ==>
                  if forall i :: 0 <= i < |indices.value| ==> indices.value[i] in doc.palette
                  then && r.Ok? && |r.value| == |indices.value|
                       && forall i :: 0 <= i < |r.value| ==> r.value[i].block == doc.palette[indices.value[i]]
                  else r == Err(NotInPalette))
  {
    DecodedErrors(Bytes(doc.blockData));
  }

  lemma {:induction false} DecodedErrors(data: seq<Byte>)
    ensures Decoded(data).Err? ==> Decoded(data).error in {BadPaletteIndex, BadBlockData}
    decreases |data|
  {
    var n := Continued(data);
    if n < |data| {
      DecodedErrors(data[n + 1..]);
    }
  }

  /** A file that is read gives every position of its box exactly one cell. */
  lemma EveryPositionOnce(doc: Document, origin: Pos, p: Pos)
    requires CellsOf(doc, origin).Ok?
    requires Size(doc.width, doc.height, doc.length).Holds(p)
    ensures var cells := CellsOf(doc, origin).value;
            && |cells| == Size(doc.width, doc.height, doc.length).Volume()
            && forall i :: 0 <= i < |cells| ==>
                 (cells[i].pos == Moved(p, origin) <==> i == IndexOf(Size(doc.width, doc.height, doc.length), p))
  {
    var (s, cells) := (Size(doc.width, doc.height, doc.length), CellsOf(doc, origin).value);
    PositionComesBack(s, p);
    forall i | 0 <= i < |cells| ensures cells[i].pos == Moved(p, origin) <==> i == IndexOf(s, p) {
      IndexComesBack(s, i);
    }
  }

  /** Nothing outside the box is written. */
  lemma NothingOutside(doc: Document, origin: Pos, i: nat)
    requires CellsOf(doc, origin).Ok? && i < |CellsOf(doc, origin).value|
    ensures exists p ::
              Size(doc.width, doc.height, doc.length).Holds(p) && CellsOf(doc, origin).value[i].pos == Moved(p, origin)
  {
    IndexComesBack(Size(doc.width, doc.height, doc.length), i);
  }

  /** Where the blocks stand: x runs fastest, then z, then y, all counted from the origin. */
  lemma CellAt(doc: Document, origin: Pos, p: Pos)
    requires CellsOf(doc, origin).Ok? && Size(doc.width, doc.height, doc.length).Holds(p)
    ensures var (cells, i) := (CellsOf(doc, origin).value, (p.y * doc.length + p.z) * doc.width + p.x);
            && 0 <= i < |cells|
            && (cells[i].pos.x, cells[i].pos.y, cells[i].pos.z) == (origin.x + p.x, origin.y + p.y, origin.z + p.z)
  {
    var s := Size(doc.width, doc.height, doc.length);
    PositionComesBack(s, p);
    Distribute(doc.width, doc.length, p.y, p.z);
    assert IndexOf(s, p) == (p.y * doc.length + p.z) * doc.width + p.x;
  }

  /** A byte as an NBT byte array holds it: with a sign. */
  function Signed(b: Byte): (r: int)
    ensures -128 <= r <= 127 && (r - b) % 256 == 0
  {
    if b < 128 then b else b - 256
  }

  function SignedAll(bytes: seq<Byte>): (r: seq<int>)
    ensures |r| == |bytes| && forall i :: 0 <= i < |r| ==> r[i] == Signed(bytes[i])
  {
    seq(|bytes|, i requires 0 <= i < |bytes| => Signed(bytes[i]))
  }

  function Written(s: Size, palette: map<int, string>, indices: seq<nat>): Document {
    Document(2, [0, 0, 0], s.width, s.height, s.length, palette, SignedAll(EncodedAll(indices)))
  }

  /** Signed or not, a byte is read as the byte it is. */
  lemma WrittenBytes(bytes: seq<Byte>)
    ensures Bytes(SignedAll(bytes)) == bytes && Bytes(bytes) == bytes
  {
  }

  lemma WrittenReads(s: Size, palette: map<int, string>, origin: Pos, indices: seq<nat>)
    requires s.Valid() && |indices| == s.Volume() && AllInPalette(indices, palette) && AllFit(indices)
    ensures CellsOf(Written(s, palette, indices), origin) == Ok(Placed(s, palette, origin, indices))
  {
    RoundTripIff(indices);
    WrittenBytes(EncodedAll(indices));
  }

  /** A blueprint written in the file's order reads back as itself: at every position
      stands the block whose index was written for it. */
  lemma BlueprintComesBack(s: Size, palette: map<int, string>, origin: Pos, indices: seq<nat>, p: Pos)
    requires s.Valid() && |indices| == s.Volume() && AllInPalette(indices, palette) && AllFit(indices)
    requires s.Holds(p)
    ensures var r := CellsOf(Written(s, palette, indices), origin);
            && r.Ok? && |r.value| == |indices| && 0 <= IndexOf(s, p) < |indices|
            && r.value[IndexOf(s, p)] == Cell(Moved(p, origin), palette[indices[IndexOf(s, p)]])
  {
    WrittenReads(s, palette, origin, indices);
    PositionComesBack(s, p);
  }
}
