/** The floor decoder of fei.rb: one 2716-byte floor block of a .fei2
    problem book cut into its fields, the terrain unpacked from nibbles,
    and the room, character, item and trap records read up to their
    end markers; plus the name tables that turn record kinds into names. */
module Fei {
  import opened Results

  type byte = n: int | 0 <= n < 0x100
  type u16 = n: int | 0 <= n < 0x1_0000

  /** The size of a floor block. */
  const BlockSize: nat := 2716

  // ------------------------------------------------------------ fields

  /** The eight fields of `unpack("a60 a1386 a320 a512 a384 a19 a32 a3")`. */
  datatype Fields = Fields(
    rooms: seq<byte>, chikei: seq<byte>, charas: seq<byte>, items: seq<byte>,
    traps: seq<byte>, floorInfo: seq<byte>, name: seq<byte>, tail: seq<byte>)

  /** The block-size check of `Floor#initialize`, then the cut into fields.
      The fields are 60, 1386, 320, 512, 384, 19, 32 and 3 bytes long and
      together are the whole block. */
  function Split(block: seq<byte>): (r: Result<Fields>)
    ensures r.Err? <==> |block| != BlockSize
    ensures r.Err? ==> r.error == PrematureEnd
    ensures r.Ok? ==> var f := r.value;
      |f.rooms| == 60 && |f.chikei| == 1386 && |f.charas| == 320 && |f.items| == 512
      && |f.traps| == 384 && |f.floorInfo| == 19 && |f.name| == 32 && |f.tail| == 3
    ensures r.Ok? ==> var f := r.value;
      f.rooms + f.chikei + f.charas + f.items + f.traps + f.floorInfo + f.name + f.tail == block
  {
    if |block| != BlockSize then Err(PrematureEnd)
    else
      var f := Fields(block[..60], block[60..1446], block[1446..1766], block[1766..2278],
                      block[2278..2662], block[2662..2681], block[2681..2713], block[2713..]);
      assert f.rooms + f.chikei + f.charas + f.items + f.traps + f.floorInfo + f.name + f.tail == block;
      Ok(f)
  }

  // ------------------------------------------------------------- chunks

  /** `scan(/.{w}/m)` (and `each_slice(w)` on a sequence whose length is a
      multiple of `w`): consecutive pieces of `w` elements; a shorter rest
      is dropped. */
  function Chunks<T>(s: seq<T>, w: nat): (r: seq<seq<T>>)
    requires w > 0
    ensures forall k | 0 <= k < |r| :: |r[k]| == w
    ensures |s| < w ==> r == []
    decreases |s|
  {
    if |s| < w then [] else [s[..w]] + Chunks(s[w..], w)
  }

  /** Piece `k` is the `w` elements from offset `k * w`, and it exists
      whenever they do. */
  lemma {:induction false} ChunksAt<T>(s: seq<T>, w: nat, k: nat)
    requires w > 0 && k * w + w <= |s|
    ensures k < |Chunks(s, w)| && Chunks(s, w)[k] == s[k * w..k * w + w]
    decreases k
  {
    if k > 0 {
      var o := (k - 1) * w;
      MulPred(k, w);
      ChunksAt(s[w..], w, k - 1);
      DropSlice(s, w, o, o + w);
    }
  }

  lemma MulPred(k: nat, w: nat)
    requires k > 0
    ensures (k - 1) * w + w == k * w
  {
  }

  lemma DropSlice<T>(s: seq<T>, d: nat, i: nat, j: nat)
    requires d <= |s| && i <= j <= |s| - d
    ensures s[d..][i..j] == s[d + i..d + j]
  {
    assert forall t | 0 <= t < j - i :: s[d..][i..j][t] == s[d + i + t];
  }

  /** Piece `k` exists only when its `w` elements do. */
  lemma {:induction false} ChunksLength<T>(s: seq<T>, w: nat, k: nat)
    requires w > 0 && k < |Chunks(s, w)|
    ensures k * w + w <= |s|
    decreases k
  {
    if k > 0 {
      ChunksLength(s[w..], w, k - 1);
    }
  }

  /** Each piece decoded, in order. */
  function Decoded<T>(chunks: seq<seq<byte>>, w: nat, decode: seq<byte> --> T): (r: seq<T>)
    requires forall k | 0 <= k < |chunks| :: |chunks[k]| == w
    requires forall c: seq<byte> | |c| == w :: decode.requires(c)
    ensures |r| == |chunks|
  {
    if |chunks| == 0 then [] else [decode(chunks[0])] + Decoded(chunks[1..], w, decode)
  }

  /** Record `k` is piece `k` decoded. */
  lemma {:induction false} DecodedAt<T>(chunks: seq<seq<byte>>, w: nat, decode: seq<byte> --> T, k: nat)
    requires forall k | 0 <= k < |chunks| :: |chunks[k]| == w
    requires forall c: seq<byte> | |c| == w :: decode.requires(c)
    requires k < |chunks|
    ensures Decoded(chunks, w, decode)[k] == decode(chunks[k])
    decreases k
  {
    if k > 0 {
      DecodedAt(chunks[1..], w, decode, k - 1);
    }
  }

  /** The records before the first end marker: the loop `each do ... break
      if <end> ... << record end`. */
  function UpToEnd<T>(rs: seq<T>, end: T -> bool): seq<T>
  {
    if |rs| == 0 || end(rs[0]) then [] else [rs[0]] + UpToEnd(rs[1..], end)
  }

  /** The scan keeps a prefix with no end marker in it, and stops only at
      the end of the records or at a marker. */
  lemma {:induction false} UpToEndIsPrefix<T>(rs: seq<T>, end: T -> bool)
    ensures UpToEnd(rs, end) <= rs
    ensures forall k | 0 <= k < |UpToEnd(rs, end)| :: !end(UpToEnd(rs, end)[k])
    ensures |UpToEnd(rs, end)| == |rs| || end(rs[|UpToEnd(rs, end)|])
  {
    if |rs| > 0 && !end(rs[0]) {
      UpToEndIsPrefix(rs[1..], end);
    }
  }

  /** One step of the scan: the first record either ends it or is kept. */
  lemma UpToEndStep<T>(rs: seq<T>, end: T -> bool)
    requires |rs| > 0
    ensures end(rs[0]) ==> UpToEnd(rs, end) == []
    ensures !end(rs[0]) ==> UpToEnd(rs, end) == [rs[0]] + UpToEnd(rs[1..], end)
  {
  }

  /** One piece of the reading loop: piece `k` either ends the list or is
      followed by the records read from the pieces after it. */
  lemma ReadStep<T>(chunks: seq<seq<byte>>, w: nat, decode: seq<byte> --> T, end: T -> bool, k: nat)
    requires forall k | 0 <= k < |chunks| :: |chunks[k]| == w
    requires forall c: seq<byte> | |c| == w :: decode.requires(c)
    requires k < |chunks|
    ensures end(decode(chunks[k])) ==> UpToEnd(Decoded(chunks[k..], w, decode), end) == []
    ensures !end(decode(chunks[k])) ==>
      UpToEnd(Decoded(chunks[k..], w, decode), end)
        == [decode(chunks[k])] + UpToEnd(Decoded(chunks[k + 1..], w, decode), end)
  {
    var rest := Decoded(chunks[k + 1..], w, decode);
    assert chunks[k..][1..] == chunks[k + 1..];
    assert Decoded(chunks[k..], w, decode) == [decode(chunks[k])] + rest;
    UpToEndStep([decode(chunks[k])] + rest, end);
    assert ([decode(chunks[k])] + rest)[1..] == rest;
  }

  /** A fixed-stride record area read the way `read_rooms`, `read_charas`,
      `read_items` and `read_traps` do: piece by piece, stopping at the
      first end marker. */
  method ReadRecords<T>(area: seq<byte>, w: nat, decode: seq<byte> --> T, end: T -> bool) returns (r: seq<T>)
    requires w > 0
    requires forall c: seq<byte> | |c| == w :: decode.requires(c)
    ensures r == UpToEnd(Decoded(Chunks(area, w), w, decode), end)
  {
    var chunks := Chunks(area, w);
    r := [];
    var k := 0;
    while k < |chunks|
      invariant k <= |chunks|
      invariant UpToEnd(Decoded(chunks, w, decode), end) == r + UpToEnd(Decoded(chunks[k..], w, decode), end)
    {
      var rec := decode(chunks[k]);
      ReadStep(chunks, w, decode, end, k);
      if end(rec) {
        return;
      }
      r := r + [rec];
      k := k + 1;
    }
    assert chunks[k..] == [];
  }

  // -------------------------------------------------------------- rooms

  datatype Room = Room(x1: byte, y1: byte, x2: byte, y2: byte)

  /** `unpack('CCCC')`. */
  function RoomOf(c: seq<byte>): Room
    requires |c| == 4
  {
    Room(c[0], c[1], c[2], c[3])
  }

  /** A room with `y1 == 0xff` ends the list. */
  predicate RoomsEnd(r: Room)
  {
    r.y1 == 0xff
  }

  /** `read_rooms`: the 4-byte records up to the first with `y1 == 0xff`;
      from the 60-byte field, at most 15 rooms. */
  function Rooms(area: seq<byte>): (r: seq<Room>)
    ensures |area| == 60 ==> |r| <= 15
    ensures forall k | 0 <= k < |r| :: r[k].y1 != 0xff
  {
    var rs := Decoded(Chunks(area, 4), 4, RoomOf);
    UpToEndIsPrefix(rs, RoomsEnd);
    if |area| == 60 then ChunksCount(area, 4, 15); UpToEnd(rs, RoomsEnd)
    else UpToEnd(rs, RoomsEnd)
  }

  lemma {:induction false} ChunksCount<T>(s: seq<T>, w: nat, n: nat)
    requires w > 0 && |s| == n * w
    ensures |Chunks(s, w)| == n
    decreases n
  {
    if n > 0 {
      MulPred(n, w);
      ChunksCount(s[w..], w, n - 1);
    }
  }

  method ReadRooms(area: seq<byte>) returns (r: seq<Room>)
    ensures r == Rooms(area)
  {
    r := ReadRecords(area, 4, RoomOf, RoomsEnd);
  }

  // --------------------------------------------------------- characters

  /** A character record: position, facing (an index into `DIR_TO_VEC`),
      kind, level and status. */
  datatype Character = Character(y: byte, x: byte, dir: u16, kind: u16, level: u16, status: u16)

  /** `v`: an unsigned little-endian 16-bit field at offset `o`. */
  function U16(c: seq<byte>, o: nat): u16
    requires o + 2 <= |c|
  {
    var v: int := c[o] as int + 0x100 * (c[o + 1] as int);
    v
  }

  /** `s`: a signed 16-bit field in native byte order, little-endian on
      the usual hosts (two's complement). */
  function S16(c: seq<byte>, o: nat): (r: int)
    requires o + 2 <= |c|
    ensures -0x8000 <= r < 0x8000
    ensures (r - U16(c, o)) % 0x1_0000 == 0
  {
    var v := U16(c, o);
    if v < 0x8000 then v else v - 0x1_0000
  }

  /** `unpack('CCvvvv')`. */
  function CharacterOf(c: seq<byte>): Character
    requires |c| == 10
  {
    Character(c[0], c[1], U16(c, 2), U16(c, 4), U16(c, 6), U16(c, 8))
  }

  predicate CharactersEnd(c: Character)
  {
    c.kind == 0
  }

  /** `read_charas`: the field must be 320 bytes, or ArgumentError; then the
      10-byte records up to the first of kind 0. */
  function Characters(area: seq<byte>): (r: Result<seq<Character>>)
    ensures r.Err? <==> |area| != 320
    ensures r.Err? ==> r.error == ArgumentError
    ensures r.Ok? ==> |r.value| <= 32 && forall k | 0 <= k < |r.value| :: r.value[k].kind != 0
  {
    if |area| != 320 then Err(ArgumentError)
    else
      ChunksCount(area, 10, 32);
      var rs := Decoded(Chunks(area, 10), 10, CharacterOf);
      UpToEndIsPrefix(rs, CharactersEnd);
      Ok(UpToEnd(rs, CharactersEnd))
  }

  method ReadCharacters(area: seq<byte>) returns (r: Result<seq<Character>>)
    ensures r == Characters(area)
  {
    if |area| != 320 {
      return Err(ArgumentError);
    }
    var cs := ReadRecords(area, 10, CharacterOf, CharactersEnd);
    return Ok(cs);
  }

  // -------------------------------------------------------------- items

  /** An item record: position, kind, count (signed) and flags. */
  datatype Item = Item(y: byte, x: byte, kind: u16, num: int, flags: u16)

  /** `unpack('CCvsv')`. */
  function ItemOf(c: seq<byte>): Item
    requires |c| == 8
  {
    Item(c[0], c[1], U16(c, 2), S16(c, 4), U16(c, 6))
  }

  /** A record whose `y` equals its `kind` ends the list. */
  predicate ItemsEnd(it: Item)
  {
    it.y == it.kind
  }

  /** `read_items`: the 8-byte records up to the first whose `y` equals its
      kind. */
  function Items(area: seq<byte>): (r: seq<Item>)
    ensures |area| == 512 ==> |r| <= 64
    ensures forall k | 0 <= k < |r| :: r[k].y != r[k].kind
  {
    var rs := Decoded(Chunks(area, 8), 8, ItemOf);
    UpToEndIsPrefix(rs, ItemsEnd);
    if |area| == 512 then ChunksCount(area, 8, 64); UpToEnd(rs, ItemsEnd)
    else UpToEnd(rs, ItemsEnd)
  }

  method ReadItems(area: seq<byte>) returns (r: seq<Item>)
    ensures r == Items(area)
  {
    r := ReadRecords(area, 8, ItemOf, ItemsEnd);
  }

  // -------------------------------------------------------------- traps

  /** A trap record: position, kind and flags. */
  datatype Trap = Trap(y: byte, x: byte, kind: u16, flags: u16)

  /** `unpack('CCvv')`. */
  function TrapOf(c: seq<byte>): Trap
    requires |c| == 6
  {
    Trap(c[0], c[1], U16(c, 2), U16(c, 4))
  }

  predicate TrapsEnd(t: Trap)
  {
    t.kind == 0
  }

  /** `read_traps`: the 6-byte records up to the first of kind 0. */
  function Traps(area: seq<byte>): (r: seq<Trap>)
    ensures |area| == 384 ==> |r| <= 64
    ensures forall k | 0 <= k < |r| :: r[k].kind != 0
  {
    var rs := Decoded(Chunks(area, 6), 6, TrapOf);
    UpToEndIsPrefix(rs, TrapsEnd);
    if |area| == 384 then ChunksCount(area, 6, 64); UpToEnd(rs, TrapsEnd)
    else UpToEnd(rs, TrapsEnd)
  }

  method ReadTraps(area: seq<byte>) returns (r: seq<Trap>)
    ensures r == Traps(area)
  {
    r := ReadRecords(area, 6, TrapOf, TrapsEnd);
  }

  /** `visible?`: bit 0 of the flags. */
  function Visible(t: Trap): (r: bool)
    ensures r <==> t.flags % 2 == 1
  {
    (t.flags as bv16) & 1 == 1
  }

  // ------------------------------------------------------------- terrain

  /** Terrain code `i` of a terrain field: the low nibble (`byte & 0x0f`,
      that is `byte % 16`) of byte `i / 2` for even `i`, the high nibble
      (`(byte & 0xf0) >> 4`, that is `byte / 16`) for odd `i`. */
  function Nibble(area: seq<byte>, i: nat): (r: nat)
    requires i < 2 * |area|
    ensures r < 16
  {
    if i % 2 == 0 then area[i / 2] % 16 else area[i / 2] / 16
  }

  /** `unpack("C1386").flat_map { |byte| [low, high] }`. */
  function Nibbles(area: seq<byte>): (r: seq<nat>)
    ensures |r| == 2 * |area|
    ensures forall i | 0 <= i < |r| :: r[i] == Nibble(area, i)
  {
    if |area| == 0 then []
    else
      var rest := Nibbles(area[1..]);
      var r := [Nibble(area, 0), Nibble(area, 1)] + rest;
      assert forall i | 2 <= i < |r| :: r[i] == Nibble(area, i) by {
        forall i | 2 <= i < |r| ensures r[i] == Nibble(area, i) {
          assert r[i] == Nibble(area[1..], i - 2);
          assert area[1..][(i - 2) / 2] == area[i / 2];
        }
      }
      r
  }

  /** `read_chikei`: 42 rows of 66 terrain codes; the code at (x, y) is
      code `66 * y + x` of the field. */
  function ReadChikei(area: seq<byte>): (r: seq<seq<nat>>)
    requires |area| == 1386
    ensures |r| == 42 && forall y | 0 <= y < 42 :: |r[y]| == 66
    ensures forall y, x | 0 <= y < 42 && 0 <= x < 66 :: r[y][x] == Nibble(area, 66 * y + x)
  {
    var ns := Nibbles(area);
    ChunksCount(ns, 66, 42);
    var r := Chunks(ns, 66);
    forall y, x | 0 <= y < 42 && 0 <= x < 66 ensures r[y][x] == Nibble(area, 66 * y + x) {
      ChunksAt(ns, 66, y);
    }
    r
  }

  // --------------------------------------------------------------- floor

  /** A decoded floor. The name stays the raw 32 bytes. */
  datatype Floor = Floor(
    difficultyLevel: byte,
    rooms: seq<Room>,
    chikei: seq<seq<nat>>,
    characters: seq<Character>,
    items: seq<Item>,
    traps: seq<Trap>,
    name: seq<byte>,
    asukaY: byte, asukaX: byte,
    stairsY: byte, stairsX: byte)

  /** `Floor.new`: check and cut the block, then `read_floor_info` (the
      protagonist's y and x from bytes 0 and 1 of the info field, the stairs'
      from bytes 6 and 7, the difficulty from byte 18), `read_chikei`,
      `read_rooms`, `read_charas`, `read_items` and `read_traps`. */
  function DecodeFloor(block: seq<byte>): (r: Result<Floor>)
    ensures r.Err? <==> |block| != BlockSize
    ensures r.Err? ==> r.error == PrematureEnd
  {
    match Split(block)
    case Err(e) => Err(e)
    case Ok(f) =>
      var info := f.floorInfo;
      match Characters(f.charas)
      case Err(e) => Err(e)
      case Ok(cs) =>
        Ok(Floor(info[18], Rooms(f.rooms), ReadChikei(f.chikei), cs, Items(f.items), Traps(f.traps),
                 f.name, info[0], info[1], info[6], info[7]))
  }

  /** The protagonist's and the stairs' positions and the difficulty come
      from bytes 2662, 2663, 2668, 2669 and 2680 of the block. */
  lemma DecodeFloorInfo(block: seq<byte>)
    requires DecodeFloor(block).Ok?
    ensures var fl := DecodeFloor(block).value;
      fl.asukaY == block[2662] && fl.asukaX == block[2663]
      && fl.stairsY == block[2668] && fl.stairsX == block[2669]
      && fl.difficultyLevel == block[2680]
  {
    assert Split(block).value.floorInfo == block[2662..2681];
  }

  /** The terrain code at (x, y) is nibble `66 * y + x` of bytes 60..1445. */
  lemma DecodeFloorChikei(block: seq<byte>)
    requires DecodeFloor(block).Ok?
    ensures var fl := DecodeFloor(block).value;
      |fl.chikei| == 42
      && forall y, x | 0 <= y < 42 && 0 <= x < 66 ::
        (|fl.chikei[y]| == 66 && fl.chikei[y][x] == Nibble(block[60..1446], 66 * y + x))
  {
    assert Split(block).value.chikei == block[60..1446];
  }

  lemma SliceOfSlice<T>(s: seq<T>, a: nat, b: nat, i: nat, j: nat)
    requires a <= b <= |s| && i <= j <= b - a
    ensures s[a..b][i..j] == s[a + i..a + j]
  {
    forall t | 0 <= t < j - i
      ensures s[a..b][i..j][t] == s[a + i..a + j][t]
    {
      assert s[a..b][i..j][t] == s[a..b][i + t];
    }
  }

  /** Record `k` kept by the scan is the `w` bytes at offset `w * k`
      decoded. */
  lemma RecordAt<T>(area: seq<byte>, w: nat, decode: seq<byte> --> T, end: T -> bool, k: nat)
    requires w > 0
    requires forall c: seq<byte> | |c| == w :: decode.requires(c)
    requires k < |UpToEnd(Decoded(Chunks(area, w), w, decode), end)|
    ensures k * w + w <= |area|
    ensures UpToEnd(Decoded(Chunks(area, w), w, decode), end)[k] == decode(area[k * w..k * w + w])
  {
    var chunks := Chunks(area, w);
    var rs := Decoded(chunks, w, decode);
    UpToEndIsPrefix(rs, end);
    DecodedAt(chunks, w, decode, k);
    ChunksLength(area, w, k);
    ChunksAt(area, w, k);
  }

  /** The decoded characters are the ones the character field yields. */
  lemma DecodeFloorCharactersField(block: seq<byte>)
    requires DecodeFloor(block).Ok?
    ensures Split(block).value.charas == block[1446..1766]
    ensures Characters(block[1446..1766]) == Ok(DecodeFloor(block).value.characters)
  {
  }

  /** Character `k` of the field is decoded from its ten bytes at `10 * k`. */
  lemma CharactersAt(charas: seq<byte>, cs: seq<Character>)
    requires Characters(charas) == Ok(cs)
    ensures forall k | 0 <= k < |cs| :: 10 * k + 10 <= |charas| && cs[k] == CharacterOf(charas[10 * k..10 * k + 10])
  {
    forall k | 0 <= k < |cs| ensures 10 * k + 10 <= |charas| && cs[k] == CharacterOf(charas[10 * k..10 * k + 10]) {
      RecordAt(charas, 10, CharacterOf, CharactersEnd, k);
    }
  }

  /** Character `k` is decoded from the ten bytes at `1446 + 10 * k`. */
  lemma DecodeFloorCharacters(block: seq<byte>)
    requires DecodeFloor(block).Ok?
    ensures var fl := DecodeFloor(block).value;
      forall k | 0 <= k < |fl.characters| :: fl.characters[k] == CharacterOf(block[1446 + 10 * k..1456 + 10 * k])
  {
    DecodeFloorCharactersField(block);
    var cs := DecodeFloor(block).value.characters;
    CharactersAt(block[1446..1766], cs);
    forall k | 0 <= k < |cs| ensures cs[k] == CharacterOf(block[1446 + 10 * k..1456 + 10 * k]) {
      SliceOfSlice(block, 1446, 1766, 10 * k, 10 * k + 10);
    }
  }

  /** `Floor.new` as the source runs it: the decoders called one after the
      other, the record areas read by their loops. */
  method NewFloor(block: seq<byte>) returns (r: Result<Floor>)
    ensures r == DecodeFloor(block)
  {
    var split := Split(block);
    if split.Err? {
      return Err(split.error);
    }
    var f := split.value;
    var chikei := ReadChikei(f.chikei);
    var rooms := ReadRooms(f.rooms);
    var cs := ReadCharacters(f.charas);
    var items := ReadItems(f.items);
    var traps := ReadTraps(f.traps);
    var info := f.floorInfo;
    return Ok(Floor(info[18], rooms, chikei, cs.value, items, traps, f.name, info[0], info[1], info[6], info[7]));
  }

  // --------------------------------------------------------------- names

  const TrapKind: map<nat, string> := map[
    35 := "丸太のワナ", 6 := "落石のワナ", 27 := "毒矢のワナ", 30 := "地雷",
    25 := "木の矢のワナ", 28 := "落し穴", 12 := "一方通行のワナ(左)",
    13 := "一方通行のワナ(右)", 14 := "一方通行のワナ(下)", 15 := "一方通行のワナ(上)",
    7 := "大落石のワナ", 34 := "水滴ポットン", 19 := "警報スイッチ", 32 := "デロデロの湯",
    39 := "いかずちのワナ", 18 := "モンスターのワナ", 31 := "大型地雷"]

  const ItemKind: map<nat, string> := map[
    214 := "聖域の巻物", 368 := "トンネルの杖", 170 := "超不幸の種", 566 := "ギタン",
    157 := "薬草", 173 := "毒草", 8 := "ドラゴン草", 160 := "つるはし",
    352 := "ふきとばしの杖", 142 := "デブータの石", 364 := "引きよせの杖", 176 := "高とび草",
    356 := "場所替えの杖", 283 := "軟投の秘技書", 25 := "モーニングスター", 9 := "サトリのつるはし",
    145 := "大砲の弾", 309 := "岩石割りの秘技書", 569 := "ンドゥバ", 108 := "身代わりの腕輪",
    374 := "クォーターの杖", 361 := "鈍足の杖", 357 := "かなしばりの杖", 567 := "風魔石",
    4 := "ドラゴンキラー", 372 := "ばくだんの杖", 209 := "ゾワゾワの巻物", 445 := "マムルの箱",
    365 := "火ばしらの杖", 219 := "落石の巻物", 94 := "まがりの腕輪", 102 := "ワナ師の腕輪",
    376 := "イカリの杖", 168 := "くねくね草", 166 := "しあわせ草", 277 := "鬼月の秘技書",
    26 := "如意棒", 62 := "サトリの盾", 177 := "すばやさの種", 301 := "四股の秘技書",
    358 := "一時しのぎの杖", 129 := "木の矢", 274 := "交錯の秘技書"]

  /** Names by kind, one per level. */
  const CharacterKind: map<nat, seq<string>> := map[
    75 := ["盗賊番"],
    107 := ["ひまガッパ", "いやすぎガッパ", "たまらんガッパ"],
    88 := ["マムル", "あなぐらマムル", "洞窟マムル"],
    83 := ["トド"],
    80 := ["タウロス", "ミノタウロス", "メガタウロス"],
    122 := ["うしわか丸", "クロウ丸", "ヨシツネ丸"],
    116 := ["プチフェニックス"],
    66 := ["怪盗ペリカンのエレキ", "怪盗ペリカン2世のエレキ", "怪盗ペリカン3世のエレキ", "怪盗ペリカン4世のエレキ"],
    92 := ["エーテルデビル", "ファントムデビル", "ミラージュデビル", "アストラルデビル"],
    89 := ["しろがねマムル", "おうごんマムル"],
    95 := ["キグニ族"],
    105 := ["ダイキライ", "エレーキライ", "チョーキライ"],
    73 := ["店主", "店長", "大店長"],
    74 := ["番犬"],
    131 := ["とげドラゴン", "アースニードル", "サンダーランス"],
    90 := ["にぎりみならい", "にぎりへんげ", "にぎり親方", "にぎりもとじめ"],
    86 := ["コドモ戦車"],
    109 := ["パ王", "パオパ王", "パオパ王ーン"],
    111 := ["タイガーウッホ", "タイガーウホーン", "タイガーウホホーン"],
    101 := ["わらうポリゴン", "まわるポリゴン", "おどるポリゴン", "うたうポリゴン"],
    115 := ["オトト兵", "オトト軍曹", "オトト大将", "オトト元帥"],
    103 := ["チンタラ", "ちゅうチンタラ", "おおチンタラ"],
    81 := ["デブータ", "デブーチョ", "デブートン"]]

  /** The only entry of the table naming a character the solver knows is
      the first of kind 122; none names the protagonist. */
  lemma KnownCharacterEntry(kind: nat, k: nat)
    requires kind in CharacterKind && k < |CharacterKind[kind]|
    ensures CharacterKind[kind][k] != "アスカ"
    ensures CharacterKind[kind][k] == "うしわか丸" <==> kind == 122 && k == 0
  {
  }

  /** `Character#name`: entry `level - 1` of the kind's list. An unknown
      kind, or a level past the list, raises; level 0 indexes from the end
      and names the last entry. */
  function CharacterName(c: Character): (r: Result<string>)
    ensures c.kind !in CharacterKind ==> r == Err(UnregisteredCharacter)
    ensures c.kind in CharacterKind ==> (r.Err? <==> c.level > |CharacterKind[c.kind]|)
    ensures c.kind in CharacterKind && r.Err? ==> r.error == UnregisteredLevel
    ensures c.kind in CharacterKind && 1 <= c.level <= |CharacterKind[c.kind]| ==>
      r == Ok(CharacterKind[c.kind][c.level - 1])
  {
    if c.kind !in CharacterKind then Err(UnregisteredCharacter)
    else
      var names := CharacterKind[c.kind];
      if c.level - 1 < |names| then
        match RubyIndex(|names|, c.level - 1)
        case Some(i) => Ok(names[i])
        case None => Err(UnregisteredLevel)
      else Err(UnregisteredLevel)
  }

  /** Level 0 names the last entry of the kind's list. */
  lemma LevelZeroNamesTheLast(c: Character)
    requires c.kind in CharacterKind && c.level == 0
    ensures CharacterName(c) == Ok(CharacterKind[c.kind][|CharacterKind[c.kind]| - 1])
  {
    assert |CharacterKind[c.kind]| > 0;
  }

  /** `Item#name`: the registered name, or raise. */
  function ItemName(it: Item): (r: Result<string>)
    ensures r.Ok? <==> it.kind in ItemKind
    ensures r.Ok? ==> r.value == ItemKind[it.kind]
    ensures r.Err? ==> r.error == UnregisteredItem
  {
    if it.kind in ItemKind then Ok(ItemKind[it.kind]) else Err(UnregisteredItem)
  }

  /** `Trap#name`: the registered name, or raise. */
  function TrapName(t: Trap): (r: Result<string>)
    ensures r.Ok? <==> t.kind in TrapKind
    ensures r.Ok? ==> r.value == TrapKind[t.kind]
    ensures r.Err? ==> r.error == UnregisteredTrap
  {
    if t.kind in TrapKind then Ok(TrapKind[t.kind]) else Err(UnregisteredTrap)
  }
}
