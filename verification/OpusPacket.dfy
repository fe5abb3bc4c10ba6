/** Splitting Opus voice packets (bot/src/audio/opus-packet.ts; RFC 6716, section 3). */
module OpusPacket {
  import opened Wrappers
  import opened Octets

  /** Configuration and stereo bits: the first byte of a packet without its two code bits. */
  type Config = c: int | 0 <= c < 64

  const MAX_FRAME := 1275

  // ---- Packing: the layouts a packet may have ----

  /** Padding of a code 3 packet: `full` length bytes 255 (254 bytes each), a last length byte, the padding itself. */
  datatype Padding = NoPadding | Padded(full: nat, last: Byte, filler: Bytes)

  /** Codes 0 to 3. In code 3 the frames are all equal in size or carry their sizes. */
  datatype Layout = Single | TwoEqual | TwoSized | Many(equal: bool, padding: Padding)

  /** One or two length bytes (section 3.2.1). */
  function SizeCode(size: nat): Bytes
    requires size <= MAX_FRAME
  {
    if size < 252 then [size] else [252 + size % 4, (size - (252 + size % 4)) / 4]
  }

  /** Length bytes of every frame but the last. */
  function SizeCodes(sizes: seq<nat>): Bytes
    requires forall i :: 0 <= i < |sizes| - 1 ==> sizes[i] <= MAX_FRAME
  {
    if |sizes| <= 1 then [] else SizeCode(sizes[0]) + SizeCodes(sizes[1..])
  }

  function Join(payloads: seq<Bytes>): Bytes {
    if payloads == [] then [] else payloads[0] + Join(payloads[1..])
  }

  function Sizes(payloads: seq<Bytes>): (sizes: seq<nat>)
    ensures |sizes| == |payloads| && forall i :: 0 <= i < |sizes| ==> sizes[i] == |payloads[i]|
  {
    seq(|payloads|, i requires 0 <= i < |payloads| => |payloads[i]|)
  }

  function Sum(sizes: seq<nat>): nat {
    if sizes == [] then 0 else sizes[0] + Sum(sizes[1..])
  }

  ghost predicate AllEqual(sizes: seq<nat>) {
    forall i :: 0 <= i < |sizes| ==> sizes[i] == sizes[0]
  }

  /** The layout can carry frames of these sizes. */
  ghost predicate Carries(layout: Layout, sizes: seq<nat>) {
    && (forall i :: 0 <= i < |sizes| ==> sizes[i] <= MAX_FRAME)
    && match layout
       case Single => |sizes| == 1
       case TwoEqual => |sizes| == 2 && AllEqual(sizes)
       case TwoSized => |sizes| == 2
       case Many(equal, padding) =>
         && 1 <= |sizes| <= 48
         && (equal ==> AllEqual(sizes))
         && (padding.Padded? ==> padding.last < 255 && |padding.filler| == 254 * padding.full + padding.last)
  }

  function PaddingCode(padding: Padding): Bytes {
    match padding
    case NoPadding => []
    case Padded(full, last, _) => seq(full, _ => 255) + [last]
  }

  function Filler(layout: Layout): Bytes {
    if layout.Many? && layout.padding.Padded? then layout.padding.filler else []
  }

  /** Everything before the first frame. `equalBit` is the value of bit 0x80 that announces equal sizes. */
  function Head(config: Config, layout: Layout, sizes: seq<nat>, equalBit: bool): Bytes
    requires Carries(layout, sizes)
  {
    match layout
    case Single => [Toc(config, 0)]
    case TwoEqual => [Toc(config, 1)]
    case TwoSized => [Toc(config, 2)] + SizeCode(sizes[0])
    case Many(equal, padding) =>
      [Toc(config, 3), CountByte(|sizes|, padding.Padded?, equal == equalBit)]
      + (PaddingCode(padding) + ExplicitSizes(equal, sizes))
  }

  function ExplicitSizes(equal: bool, sizes: seq<nat>): Bytes
    requires forall i :: 0 <= i < |sizes| ==> sizes[i] <= MAX_FRAME
  {
    if equal then [] else SizeCodes(sizes)
  }

  /** First byte of a packet. */
  function Toc(config: Config, code: nat): (toc: Byte)
    requires code < 4
    ensures toc / 4 == config && toc % 4 == code
  {
    4 * config + code
  }

  lemma TocParts(b: Byte)
    ensures b == Toc(b / 4, b % 4)
  {
  }

  /** Second byte of a code 3 packet. */
  function CountByte(count: nat, padded: bool, high: bool): (b: Byte)
    requires 1 <= count <= 48
    ensures b % 64 == count && (b / 64 % 2 == 1 <==> padded) && (b / 128 == 1 <==> high)
  {
    count + (if padded then 64 else 0) + (if high then 128 else 0)
  }

  /** A packet: head, then the frames in order, then the padding. */
  function Pack(config: Config, layout: Layout, payloads: seq<Bytes>, equalBit: bool): Bytes
    requires Carries(layout, Sizes(payloads))
  {
    Head(config, layout, Sizes(payloads), equalBit) + Join(payloads) + Filler(layout)
  }

  /** Each frame as a code 0 packet of its own. */
  function Alone(config: Config, payloads: seq<Bytes>): seq<Bytes> {
    seq(|payloads|, i requires 0 <= i < |payloads| => [Toc(config, 0)] + payloads[i])
  }

  // ---- Splitting: what the code reads ----

  /** A frame size at `offset` and how many bytes it took. */
  function ParseSize(data: Bytes, offset: nat): Option<(nat, nat)> {
    if offset >= |data| then None
    else if data[offset] < 252 then Some((data[offset], 1))
    else if offset + 1 >= |data| then None
    else Some((4 * data[offset + 1] as int + data[offset] as int, 2))
  }

  /** Skips the padding length bytes; what is left of `len` excludes the padding. */
  function SkipPadding(p: Bytes, offset: nat, len: int): Option<(nat, int)>
    requires offset + len <= |p|
    decreases |p| - offset
  {
    if len <= 0 then None
    else if p[offset] == 255 then SkipPadding(p, offset + 1, len - 255)
    else Some((offset + 1, len - 1 - p[offset]))
  }

  /** Explicit sizes of `more` frames, and the rest for one last frame. */
  function ReadSizes(p: Bytes, offset: nat, remaining: int, more: nat): Option<(seq<nat>, nat)>
    decreases more
  {
    if more == 0 then
      if remaining < 0 then None else Some(([remaining], offset))
    else
      match ParseSize(p, offset)
      case None => None
      case Some((size, bytes)) =>
        if size > remaining - bytes then None
        else
          match ReadSizes(p, offset + bytes, remaining - bytes - size, more - 1)
          case None => None
          case Some((sizes, end)) => Some(([size] + sizes, end))
  }

  function Repeat(count: nat, size: nat): (sizes: seq<nat>)
    ensures |sizes| == count && forall i :: 0 <= i < count ==> sizes[i] == size
  {
    seq(count, _ => size)
  }

  /** Code 3: where the byte after any padding lengths stands, and how many bytes are left without padding. */
  function ReadPadding(p: Bytes): Option<(nat, int)>
    requires |p| >= 2
  {
    if p[1] / 64 % 2 == 1 then SkipPadding(p, 2, |p| - 2) else Some((2, |p| - 2))
  }

  /** Code 3: a count byte, padding lengths, and either equal frames or explicit sizes. */
  function ReadManyHead(p: Bytes, equalBit: bool): Option<(seq<nat>, nat)>
    requires |p| >= 2
  {
    var count := p[1] % 64;
    if count == 0 || count > 48 then None
    else
      match ReadPadding(p)
      case None => None
      case Some((offset, rest)) =>
        if rest < 0 then None else ReadShares(p, offset, rest, count, (p[1] / 128 == 1) == equalBit)
  }

  /** Code 3: the sizes that share out the bytes left, and where the frames begin. */
  function ReadShares(p: Bytes, offset: nat, rest: nat, count: nat, equal: bool): Option<(seq<nat>, nat)>
    requires count > 0
  {
    if !equal then ReadSizes(p, offset, rest, count - 1)
    else if rest % count != 0 then None
    else
      var share: nat := rest / count;
      Some((Repeat(count, share), offset))
  }

  /** Frame sizes and the position of the first frame. */
  function ReadHead(p: Bytes, equalBit: bool): Option<(seq<nat>, nat)>
    requires p != []
  {
    var len := |p| - 1;
    match p[0] % 4
    case 0 => Some((Repeat(1, len), 1))
    case 1 => if len % 2 == 1 then None else Some((Repeat(2, len / 2), 1))
    case 2 => ReadSizes(p, 1, len, 1)
    case _ => if len < 1 then None else ReadManyHead(p, equalBit)
  }

  /** Cuts `p` from `offset` into frames of the given sizes. */
  function Cut(p: Bytes, config: Config, offset: nat, sizes: seq<nat>): Option<seq<Bytes>>
    decreases |sizes|
  {
    if sizes == [] then Some([])
    else if offset + sizes[0] > |p| then None
    else
      match Cut(p, config, offset + sizes[0], sizes[1..])
      case None => None
      case Some(frames) => Some([[Toc(config, 0)] + p[offset..offset + sizes[0]]] + frames)
  }

  /** The frames of a packet as packets of their own, or nothing if the packet is malformed. */
  function Split(p: Bytes, equalBit: bool): Option<seq<Bytes>> {
    if p == [] then None
    else
      match ReadHead(p, equalBit)
      case None => None
      case Some((sizes, offset)) =>
        if exists i :: 0 <= i < |sizes| && sizes[i] > MAX_FRAME then None
        else Cut(p, p[0] / 4, offset, sizes)
  }

  // ---- Both directions agree ----

  /** `bytes` stands in `p` at `offset`. */
  ghost predicate At(p: Bytes, offset: nat, bytes: Bytes) {
    offset + |bytes| <= |p| && forall i :: 0 <= i < |bytes| ==> bytes[i] == p[offset + i]
  }

  lemma AtConcat(p: Bytes, offset: nat, a: Bytes, b: Bytes)
    ensures At(p, offset, a + b) <==> At(p, offset, a) && At(p, offset + |a|, b)
  {
    if At(p, offset, a + b) {
      assert forall i :: 0 <= i < |a| ==> a[i] == (a + b)[i];
      assert forall i :: 0 <= i < |b| ==> b[i] == (a + b)[|a| + i];
    }
  }

  lemma AtSlice(p: Bytes, offset: nat, bytes: Bytes)
    requires At(p, offset, bytes)
    ensures p[offset..offset + |bytes|] == bytes
  {
  }

  /** The length code is a bijection between 0..1275 and what `ParseSize` accepts. */
  lemma SizeCodeIsBijective(p: Bytes, offset: nat, size: nat, bytes: nat)
    ensures ParseSize(p, offset) == Some((size, bytes)) <==>
      size <= MAX_FRAME && bytes == |SizeCode(size)| && At(p, offset, SizeCode(size))
  {
    if ParseSize(p, offset) == Some((size, bytes)) {
      if bytes == 2 {
        assert size % 4 == p[offset] - 252;
        assert p[offset..offset + 2] == [p[offset], p[offset + 1]];
      } else {
        assert p[offset..offset + 1] == [p[offset]];
      }
    } else if size <= MAX_FRAME && At(p, offset, SizeCode(size)) {
      assert p[offset] == SizeCode(size)[0];
      if size >= 252 { assert p[offset + 1] == SizeCode(size)[1]; }
    }
  }

  /** The sizes of all but the last frame are coded from `offset` to `end`, and `remaining` covers codes and frames. */
  ghost predicate Coded(p: Bytes, offset: nat, remaining: int, sizes: seq<nat>, end: nat) {
    && sizes != [] && Codable(sizes) && At(p, offset, SizeCodes(sizes)) && end == offset + |SizeCodes(sizes)|
    && remaining == |SizeCodes(sizes)| + Sum(sizes)
  }

  ghost predicate Codable(sizes: seq<nat>) {
    forall i :: 0 <= i < |sizes| - 1 ==> sizes[i] <= MAX_FRAME
  }

  lemma CodableFrom(size: nat, rest: seq<nat>)
    requires size <= MAX_FRAME && rest != []
    ensures Codable([size] + rest) <==> Codable(rest)
  {
    var sizes := [size] + rest;
    if Codable(sizes) {
      forall i | 0 <= i < |rest| - 1 ensures rest[i] <= MAX_FRAME { assert sizes[i + 1] == rest[i]; }
    }
  }

  lemma CodedFrom(p: Bytes, offset: nat, remaining: int, size: nat, rest: seq<nat>, end: nat)
    requires size <= MAX_FRAME && rest != []
    ensures Coded(p, offset, remaining, [size] + rest, end) <==>
      && At(p, offset, SizeCode(size))
      && Coded(p, offset + |SizeCode(size)|, remaining - |SizeCode(size)| - size, rest, end)
  {
    var sizes := [size] + rest;
    assert sizes[1..] == rest;
    CodableFrom(size, rest);
    if Codable(rest) { AtConcat(p, offset, SizeCode(size), SizeCodes(rest)); }
  }

  lemma CodedOne(p: Bytes, offset: nat, remaining: int, size: nat, end: nat)
    ensures Coded(p, offset, remaining, [size], end) <==> offset <= |p| && end == offset && remaining == size
  {
    assert Sum([size]) == size + Sum([]);
  }

  /** What the code reads as sizes is their encoding, and the sizes account for every byte before the padding. */
  lemma {:induction false} ReadSizesSound(p: Bytes, offset: nat, remaining: int, more: nat)
    requires offset <= |p| && ReadSizes(p, offset, remaining, more).Some?
    ensures var (sizes, end) := ReadSizes(p, offset, remaining, more).value;
      |sizes| == more + 1 && Coded(p, offset, remaining, sizes, end)
    decreases more
  {
    if more == 0 {
      CodedOne(p, offset, remaining, remaining, offset);
    } else {
      var (size, bytes) := ParseSize(p, offset).value;
      SizeCodeIsBijective(p, offset, size, bytes);
      ReadSizesSound(p, offset + bytes, remaining - bytes - size, more - 1);
      var (rest, end) := ReadSizes(p, offset + bytes, remaining - bytes - size, more - 1).value;
      CodedFrom(p, offset, remaining, size, rest, end);
    }
  }

  lemma {:induction false} ReadSizesComplete(p: Bytes, offset: nat, remaining: int, sizes: seq<nat>, end: nat)
    requires Coded(p, offset, remaining, sizes, end)
    ensures ReadSizes(p, offset, remaining, |sizes| - 1) == Some((sizes, end))
    decreases |sizes|
  {
    var size, rest := sizes[0], sizes[1..];
    assert sizes == [size] + rest;
    if rest == [] {
      assert sizes == [size];
      CodedOne(p, offset, remaining, size, end);
    } else {
      CodedFrom(p, offset, remaining, size, rest, end);
      SizeCodeIsBijective(p, offset, size, |SizeCode(size)|);
      ReadSizesComplete(p, offset + |SizeCode(size)|, remaining - |SizeCode(size)| - size, rest, end);
    }
  }

  /** The padding length bytes say how much padding ends the packet. */
  lemma {:induction false} SkipPaddingSound(p: Bytes, offset: nat, len: int) returns (full: nat, last: Byte)
    requires offset + len <= |p| && SkipPadding(p, offset, len).Some?
    ensures last < 255 && At(p, offset, seq(full, _ => 255) + [last])
    ensures SkipPadding(p, offset, len).value == (offset + full + 1, len - 255 * full - 1 - last)
    decreases |p| - offset
  {
    if p[offset] == 255 {
      full, last := SkipPaddingSound(p, offset + 1, len - 255);
      var code := seq(full, _ => 255) + [last];
      assert p[offset..offset + 1] == [255];
      AtConcat(p, offset, [255], code);
      assert [255] + code == seq(full + 1, _ => 255) + [last];
      full := full + 1;
    } else {
      full, last := 0, p[offset];
      assert p[offset..offset + 1] == [last] == seq(0, _ => 255) + [last];
    }
  }

  lemma {:induction false} SkipPaddingComplete(p: Bytes, offset: nat, len: int, full: nat, last: Byte)
    requires offset + len <= |p| && last < 255 && At(p, offset, seq(full, _ => 255) + [last])
    requires len - 255 * full - 1 - last >= 0
    ensures SkipPadding(p, offset, len) == Some((offset + full + 1, len - 255 * full - 1 - last))
    decreases full
  {
    var code := seq(full, _ => 255) + [last];
    assert p[offset] == p[offset..offset + |code|][0] == code[0];
    if full > 0 {
      assert code == [255] + (seq(full - 1, _ => 255) + [last]);
      AtConcat(p, offset, [255], seq(full - 1, _ => 255) + [last]);
      SkipPaddingComplete(p, offset + 1, len - 255, full - 1, last);
    }
  }

  /** Cutting finds exactly the frames that stand in order from `offset`. */
  lemma {:induction false} CutFinds(p: Bytes, config: Config, offset: nat, payloads: seq<Bytes>)
    requires At(p, offset, Join(payloads))
    ensures Cut(p, config, offset, Sizes(payloads)) == Some(Alone(config, payloads))
    decreases |payloads|
  {
    if payloads != [] {
      AtConcat(p, offset, payloads[0], Join(payloads[1..]));
      AtSlice(p, offset, payloads[0]);
      CutFinds(p, config, offset + |payloads[0]|, payloads[1..]);
      assert Sizes(payloads)[1..] == Sizes(payloads[1..]);
      assert Alone(config, payloads) == [[Toc(config, 0)] + payloads[0]] + Alone(config, payloads[1..]);
    } else {
      assert Alone(config, payloads) == [];
    }
  }

  /** Frames of the given sizes always stand there when there is room for them. */
  lemma {:induction false} FramesStand(p: Bytes, offset: nat, sizes: seq<nat>) returns (payloads: seq<Bytes>)
    requires offset + Sum(sizes) <= |p|
    ensures Sizes(payloads) == sizes && Join(payloads) == p[offset..offset + Sum(sizes)]
    decreases |sizes|
  {
    if sizes == [] {
      payloads := [];
    } else {
      var rest := FramesStand(p, offset + sizes[0], sizes[1..]);
      payloads := [p[offset..offset + sizes[0]]] + rest;
      assert payloads[1..] == rest;
      assert p[offset..offset + Sum(sizes)] == payloads[0] + p[offset + sizes[0]..offset + Sum(sizes)];
      assert Sizes(payloads) == [sizes[0]] + Sizes(rest);
    }
  }

  // ---- Main results ----

  /** The layout's head ends at `offset`, and after frames of these sizes its padding ends the packet. */
  ghost predicate Framed(p: Bytes, layout: Layout, sizes: seq<nat>, offset: nat, equalBit: bool) {
    && p != [] && Carries(layout, sizes)
    && At(p, 0, Head(p[0] / 4, layout, sizes, equalBit)) && offset == |Head(p[0] / 4, layout, sizes, equalBit)|
    && offset + Sum(sizes) + |Filler(layout)| == |p| && At(p, offset + Sum(sizes), Filler(layout))
  }

  function Code(layout: Layout): nat {
    match layout
    case Single => 0
    case TwoEqual => 1
    case TwoSized => 2
    case Many(_, _) => 3
  }

  lemma HeadByte(config: Config, layout: Layout, sizes: seq<nat>, equalBit: bool)
    requires Carries(layout, sizes)
    ensures var head := Head(config, layout, sizes, equalBit);
      head != [] && head[0] == Toc(config, Code(layout)) && head[0] / 4 == config && head[0] % 4 == Code(layout)
  {
  }

  lemma PackedParts(config: Config, layout: Layout, payloads: seq<Bytes>, equalBit: bool)
    requires Carries(layout, Sizes(payloads))
    ensures var p, head := Pack(config, layout, payloads, equalBit), |Head(config, layout, Sizes(payloads), equalBit)|;
      p != [] && p[0] / 4 == config && Framed(p, layout, Sizes(payloads), head, equalBit) && At(p, head, Join(payloads))
  {
    var head, frames, filler := Head(config, layout, Sizes(payloads), equalBit), Join(payloads), Filler(layout);
    JoinLength(payloads);
    HeadByte(config, layout, Sizes(payloads), equalBit);
    ThreeStand(head, frames, filler);
    assert (head + frames + filler)[0] == head[0];
  }

  lemma ThreeStand(a: Bytes, b: Bytes, c: Bytes)
    ensures At(a + b + c, 0, a) && At(a + b + c, |a|, b) && At(a + b + c, |a| + |b|, c)
  {
  }

  lemma {:induction false} JoinLength(payloads: seq<Bytes>)
    ensures |Join(payloads)| == Sum(Sizes(payloads))
  {
    if payloads != [] {
      JoinLength(payloads[1..]);
      assert Sizes(payloads)[1..] == Sizes(payloads[1..]);
    }
  }

  lemma {:induction false} EqualSum(sizes: seq<nat>, size: nat)
    requires forall i :: 0 <= i < |sizes| ==> sizes[i] == size
    ensures Sum(sizes) == |sizes| * size
  {
    if sizes != [] {
      EqualSum(sizes[1..], size);
      assert |sizes| * size == size + (|sizes| - 1) * size;
    }
  }

  /** Reading the head of a framed packet gives back the sizes and the place of the first frame. */
  lemma ReadsHead(p: Bytes, layout: Layout, sizes: seq<nat>, offset: nat, equalBit: bool)
    requires Framed(p, layout, sizes, offset, equalBit)
    ensures ReadHead(p, equalBit) == Some((sizes, offset))
  {
    HeadByte(p[0] / 4, layout, sizes, equalBit);
    assert p[0] == Head(p[0] / 4, layout, sizes, equalBit)[0];
    match layout
    case Single =>
      TwoSum(sizes);
      assert sizes == Repeat(1, |p| - 1);
    case TwoEqual => ReadsTwoEqual(sizes, |p| - 1);
    case TwoSized =>
      ReadsTwoSized(p, sizes);
      assert offset == 1 + |SizeCode(sizes[0])|;
    case Many(equal, padding) => ReadsMany(p, equal, padding, sizes, offset, equalBit);
  }

  lemma ReadsMany(p: Bytes, equal: bool, padding: Padding, sizes: seq<nat>, offset: nat, equalBit: bool)
    requires Framed(p, Many(equal, padding), sizes, offset, equalBit) && p[0] % 4 == 3
    ensures ReadHead(p, equalBit) == Some((sizes, offset))
  {
    ManyStands(p, equal, padding, sizes, offset, equalBit);
    ReadsManyHead(p, equal, padding, sizes, equalBit);
    assert ReadHead(p, equalBit) == ReadManyHead(p, equalBit);
  }

  /** The parts of a code 3 head, where they stand. */
  lemma ManyStands(p: Bytes, equal: bool, padding: Padding, sizes: seq<nat>, offset: nat, equalBit: bool)
    requires Framed(p, Many(equal, padding), sizes, offset, equalBit)
    ensures |p| >= 2 && p[1] == CountByte(|sizes|, padding.Padded?, equal == equalBit)
    ensures At(p, 2, PaddingCode(padding)) && At(p, 2 + |PaddingCode(padding)|, ExplicitSizes(equal, sizes))
    ensures offset == 2 + |PaddingCode(padding)| + |ExplicitSizes(equal, sizes)|
    ensures |p| == offset + Sum(sizes) + |Filler(Many(equal, padding))|
  {
    ManyHeadStands(p, p[0] / 4, equal, padding, sizes, equalBit);
  }

  lemma ReadsTwoEqual(sizes: seq<nat>, len: nat)
    requires |sizes| == 2 && AllEqual(sizes) && Sum(sizes) == len
    ensures len % 2 == 0 && sizes == Repeat(2, len / 2)
  {
    TwoSum(sizes);
    assert sizes[1] == sizes[0];
  }

  lemma ReadsTwoSized(p: Bytes, sizes: seq<nat>)
    requires |sizes| == 2 && sizes[0] <= MAX_FRAME && p != []
    requires At(p, 0, [p[0]] + SizeCode(sizes[0])) && 1 + |SizeCode(sizes[0])| + Sum(sizes) == |p|
    ensures ReadSizes(p, 1, |p| - 1, 1) == Some((sizes, 1 + |SizeCode(sizes[0])|))
  {
    var size, code := sizes[0], SizeCode(sizes[0]);
    AtConcat(p, 0, [p[0]], code);
    TwoSum(sizes);
    assert SizeCodes(sizes) == code + SizeCodes(sizes[1..]) == code;
    assert Coded(p, 1, |p| - 1, sizes, 1 + |code|);
    ReadSizesComplete(p, 1, |p| - 1, sizes, 1 + |code|);
  }

  lemma TwoSum(sizes: seq<nat>)
    requires 1 <= |sizes| <= 2
    ensures Sum(sizes) == sizes[0] + (if |sizes| == 2 then sizes[1] else 0)
  {
    if |sizes| == 2 { assert sizes[1..] == [sizes[1]]; assert Sum([sizes[1]]) == sizes[1] + Sum([]); }
  }

  lemma ReadsManyHead(p: Bytes, equal: bool, padding: Padding, sizes: seq<nat>, equalBit: bool)
    requires Carries(Many(equal, padding), sizes)
    requires |p| >= 2 && p[1] == CountByte(|sizes|, padding.Padded?, equal == equalBit)
    requires At(p, 2, PaddingCode(padding)) && At(p, 2 + |PaddingCode(padding)|, ExplicitSizes(equal, sizes))
    requires |p|
      == 2 + |PaddingCode(padding)| + |ExplicitSizes(equal, sizes)| + Sum(sizes) + |Filler(Many(equal, padding))|
    ensures ReadManyHead(p, equalBit) == Some((sizes, 2 + |PaddingCode(padding)| + |ExplicitSizes(equal, sizes)|))
  {
    var offset, rest := 2 + |PaddingCode(padding)|, |ExplicitSizes(equal, sizes)| + Sum(sizes);
    ReadsPadding(p, padding, rest);
    ReadSharesComplete(p, offset, rest, sizes, equal);
  }

  lemma ReadSharesComplete(p: Bytes, offset: nat, rest: nat, sizes: seq<nat>, equal: bool)
    requires sizes != [] && (forall i :: 0 <= i < |sizes| ==> sizes[i] <= MAX_FRAME) && (equal ==> AllEqual(sizes))
    requires At(p, offset, ExplicitSizes(equal, sizes)) && rest == |ExplicitSizes(equal, sizes)| + Sum(sizes)
    ensures ReadShares(p, offset, rest, |sizes|, equal) == Some((sizes, offset + |ExplicitSizes(equal, sizes)|))
  {
    if equal {
      SharesBack(sizes, rest);
    } else {
      ReadSizesComplete(p, offset, rest, sizes, offset + |SizeCodes(sizes)|);
    }
  }

  lemma SharesBack(sizes: seq<nat>, rest: int)
    requires sizes != [] && AllEqual(sizes) && rest == Sum(sizes)
    ensures rest % |sizes| == 0 && sizes == Repeat(|sizes|, rest / |sizes|)
  {
    EqualSum(sizes, sizes[0]);
    EqualShare(|sizes|, sizes[0]);
  }

  lemma ReadsPadding(p: Bytes, padding: Padding, rest: int)
    requires |p| >= 2 && (p[1] / 64 % 2 == 1 <==> padding.Padded?) && rest >= 0
    requires padding.Padded? ==> padding.last < 255 && |padding.filler| == 254 * padding.full + padding.last
    requires At(p, 2, PaddingCode(padding))
    requires |p| == 2 + |PaddingCode(padding)| + rest + (if padding.Padded? then |padding.filler| else 0)
    ensures ReadPadding(p) == Some((2 + |PaddingCode(padding)|, rest))
  {
    if padding.Padded? { SkipPaddingComplete(p, 2, |p| - 2, padding.full, padding.last); }
  }

  lemma SharedOut(sizes: seq<nat>, rest: nat, count: nat)
    requires count > 0 && rest % count == 0 && sizes == Repeat(count, rest / count)
    ensures Sum(sizes) == rest
  {
    EqualSum(sizes, rest / count);
    assert rest == count * (rest / count);
  }

  lemma EqualShare(count: int, size: int)
    requires count > 0
    ensures count * size % count == 0 && count * size / count == size
  {
    var n := count * size;
    var d: int := size - n / count;
    assert count * d == n % count;
    Multiple(count, d);
  }

  lemma Multiple(count: int, d: int)
    requires count > 0
    ensures d >= 1 ==> count * d >= count
    ensures d <= -1 ==> count * d <= -count
  {
  }

  /** Round trip: every layout, whatever its frames and padding, splits into exactly its frames. */
  lemma RoundTrip(config: Config, layout: Layout, payloads: seq<Bytes>, equalBit: bool)
    requires Carries(layout, Sizes(payloads))
    ensures Split(Pack(config, layout, payloads, equalBit), equalBit) == Some(Alone(config, payloads))
  {
    PackedParts(config, layout, payloads, equalBit);
    var head := |Head(config, layout, Sizes(payloads), equalBit)|;
    ReadsHead(Pack(config, layout, payloads, equalBit), layout, Sizes(payloads), head, equalBit);
    CutFinds(Pack(config, layout, payloads, equalBit), config, head, payloads);
  }

  lemma ThreeParts(p: Bytes, a: Bytes, b: Bytes, c: Bytes)
    requires At(p, 0, a) && At(p, |a|, b) && At(p, |a| + |b|, c) && |p| == |a| + |b| + |c|
    ensures p == a + b + c
  {
  }

  /** The head of an accepted packet is the head of some layout, and the rest of that layout is its padding. */
  lemma ReadHeadSound(p: Bytes, equalBit: bool) returns (layout: Layout)
    requires p != [] && ReadHead(p, equalBit).Some?
    requires var (sizes, _) := ReadHead(p, equalBit).value; forall i :: 0 <= i < |sizes| ==> sizes[i] <= MAX_FRAME
    ensures Framed(p, layout, ReadHead(p, equalBit).value.0, ReadHead(p, equalBit).value.1, equalBit)
  {
    var (sizes, offset) := ReadHead(p, equalBit).value;
    TocParts(p[0]);
    assert p[..1] == [p[0]];
    if p[0] % 4 == 0 {
      layout := Single;
      TwoSum(sizes);
    } else if p[0] % 4 == 1 {
      layout := TwoEqual;
      TwoSum(sizes);
    } else if p[0] % 4 == 2 {
      layout := TwoSized;
      ReadSizesSound(p, 1, |p| - 1, 1);
      assert SizeCodes(sizes) == SizeCode(sizes[0]) + SizeCodes(sizes[1..]) == SizeCode(sizes[0]);
      AtConcat(p, 0, [p[0]], SizeCode(sizes[0]));
    } else {
      layout := ReadManySound(p, equalBit);
    }
  }

  lemma ReadPaddingSound(p: Bytes) returns (padding: Padding)
    requires |p| >= 2 && ReadPadding(p).Some? && ReadPadding(p).value.1 >= 0
    ensures padding.Padded? <==> p[1] / 64 % 2 == 1
    ensures padding.Padded? ==> padding.last < 255 && |padding.filler| == 254 * padding.full + padding.last
    ensures At(p, 2, PaddingCode(padding))
    ensures var (offset, rest) := ReadPadding(p).value;
      && offset == 2 + |PaddingCode(padding)|
      && offset + rest + |Filler(Many(false, padding))| == |p| && At(p, offset + rest, Filler(Many(false, padding)))
  {
    var (offset, rest) := ReadPadding(p).value;
    if p[1] / 64 % 2 == 1 {
      var full, last := SkipPaddingSound(p, 2, |p| - 2);
      padding := Padded(full, last, p[offset + rest..]);
    } else {
      padding := NoPadding;
      assert p[2..2] == [];
    }
  }

  lemma ReadManySound(p: Bytes, equalBit: bool) returns (layout: Layout)
    requires |p| >= 2 && p[0] % 4 == 3 && ReadManyHead(p, equalBit).Some?
    requires var (sizes, _) := ReadManyHead(p, equalBit).value; forall i :: 0 <= i < |sizes| ==> sizes[i] <= MAX_FRAME
    ensures Framed(p, layout, ReadManyHead(p, equalBit).value.0, ReadManyHead(p, equalBit).value.1, equalBit)
  {
    var (sizes, end) := ReadManyHead(p, equalBit).value;
    var count, equal := p[1] % 64, (p[1] / 128 == 1) == equalBit;
    var padding := ReadPaddingSound(p);
    var (offset, rest) := ReadPadding(p).value;
    layout := Many(equal, padding);
    ReadSharesSound(p, offset, rest, count, equal);
    TocParts(p[0]);
    CountByteParts(p[1]);
    ManyHeadStands(p, p[0] / 4, equal, padding, sizes, equalBit);
  }

  lemma ReadSharesSound(p: Bytes, offset: nat, rest: nat, count: nat, equal: bool)
    requires offset <= |p| && count > 0 && ReadShares(p, offset, rest, count, equal).Some?
    requires var (sizes, _) := ReadShares(p, offset, rest, count, equal).value;
      forall i :: 0 <= i < |sizes| ==> sizes[i] <= MAX_FRAME
    ensures var (sizes, end) := ReadShares(p, offset, rest, count, equal).value;
      && |sizes| == count && (equal ==> AllEqual(sizes))
      && At(p, offset, ExplicitSizes(equal, sizes)) && end == offset + |ExplicitSizes(equal, sizes)|
      && end + Sum(sizes) == offset + rest
  {
    var (sizes, end) := ReadShares(p, offset, rest, count, equal).value;
    if equal {
      SharedOut(sizes, rest, count);
      assert p[end..end] == [];
    } else {
      ReadSizesSound(p, offset, rest, count - 1);
    }
  }

  lemma CountByteParts(b: Byte)
    requires 1 <= b % 64 <= 48
    ensures b == CountByte(b % 64, b / 64 % 2 == 1, b / 128 == 1)
  {
  }

  lemma TwoThen(p: Bytes, a: Byte, b: Byte, more: Bytes, most: Bytes)
    ensures At(p, 0, [a, b] + (more + most)) <==>
      |p| >= 2 && p[0] == a && p[1] == b && At(p, 2, more) && At(p, 2 + |more|, most)
  {
    AtConcat(p, 0, [a, b], more + most);
    AtConcat(p, 2, more, most);
    if At(p, 0, [a, b]) { assert [a, b][0] == p[0] && [a, b][1] == p[1]; }
  }

  /** A code 3 head stands at the start of a packet when its parts do. */
  lemma ManyHeadStands(p: Bytes, config: Config, equal: bool, padding: Padding, sizes: seq<nat>, equalBit: bool)
    requires Carries(Many(equal, padding), sizes)
    ensures var pads := PaddingCode(padding); var codes := ExplicitSizes(equal, sizes);
      && |Head(config, Many(equal, padding), sizes, equalBit)| == 2 + |pads| + |codes|
      && (At(p, 0, Head(config, Many(equal, padding), sizes, equalBit)) <==>
        && |p| >= 2 && p[0] == Toc(config, 3) && p[1] == CountByte(|sizes|, padding.Padded?, equal == equalBit)
        && At(p, 2, pads) && At(p, 2 + |pads|, codes))
  {
    var pads := PaddingCode(padding);
    var codes := ExplicitSizes(equal, sizes);
    TwoThen(p, Toc(config, 3), CountByte(|sizes|, padding.Padded?, equal == equalBit), pads, codes);
  }

  /** Soundness: an accepted packet is some packed packet, byte for byte, and its frames are the ones returned. */
  lemma AcceptedIsPacked(p: Bytes, equalBit: bool) returns (config: Config, layout: Layout, payloads: seq<Bytes>)
    requires Split(p, equalBit).Some?
    ensures Carries(layout, Sizes(payloads)) && p == Pack(config, layout, payloads, equalBit)
    ensures Split(p, equalBit) == Some(Alone(config, payloads))
    ensures config == p[0] / 4 && Sizes(payloads) == ReadHead(p, equalBit).value.0
  {
    config := p[0] / 4;
    layout := ReadHeadSound(p, equalBit);
    var (sizes, offset) := ReadHead(p, equalBit).value;
    payloads := FramesStand(p, offset, sizes);
    JoinLength(payloads);
    ThreeParts(p, Head(config, layout, sizes, equalBit), Join(payloads), Filler(layout));
    RoundTrip(config, layout, payloads, equalBit);
  }

  /** A code 0 packet is already what the splitter would make of its frame. */
  lemma SingleIsItself(p: Bytes, equalBit: bool)
    requires p != [] && p[0] % 4 == 0 && |p| - 1 <= MAX_FRAME
    ensures Split(p, equalBit) == Some([p])
  {
    var payload := p[1..];
    assert Join([payload]) == payload + Join([]) == payload;
    assert Sizes([payload]) == [|payload|];
    TocParts(p[0]);
    assert Carries(Single, Sizes([payload]));
    assert Filler(Single) == [] && Head(p[0] / 4, Single, Sizes([payload]), equalBit) == [p[0]];
    assert [p[0]] + payload + [] == p;
    assert Pack(p[0] / 4, Single, [payload], equalBit) == p;
    RoundTrip(p[0] / 4, Single, [payload], equalBit);
    assert Alone(p[0] / 4, [payload])[0] == [p[0]] + payload == p;
    assert Alone(p[0] / 4, [payload]) == [p];
  }

  /** Every frame that comes out is itself accepted, as just that frame. */
  lemma FramesSplitToThemselves(p: Bytes, equalBit: bool, i: nat)
    requires Split(p, equalBit).Some? && i < |Split(p, equalBit).value|
    ensures var frame := Split(p, equalBit).value[i]; Split(frame, equalBit) == Some([frame])
  {
    var config, _, payloads := AcceptedIsPacked(p, equalBit);
    SingleIsItself([Toc(config, 0)] + payloads[i], equalBit);
  }

  // ---- Against the standard ----

  /** The code takes bit 0x80 set to mean equal sizes; section 3.2.5 of RFC 6716 takes it to mean explicit sizes. */
  const CODE_EQUAL_BIT := true
  const RFC_EQUAL_BIT := false

  /** Length of one frame in units of 2.5 ms (section 3.1 of RFC 6716, Table 2). */
  function FrameDuration(config: Config): (units: nat)
    ensures 1 <= units <= 24
  {
    var number := config / 2; // without the stereo bit
    if number < 12 then [4, 8, 16, 24][number % 4]
    else if number < 16 then [4, 8][number % 2]
    else [1, 2, 4, 8][number % 4]
  }

  /** 120 ms, the most audio a packet may hold. */
  const MAX_DURATION := 48

  /** A code 3 packet that announces more than 120 ms of audio. */
  predicate Overlong(p: Bytes) {
    |p| >= 2 && p[0] % 4 == 3 && p[1] % 64 * FrameDuration(p[0] / 4) > MAX_DURATION
  }

  /**
   * What RFC 6716 makes of a packet: requirements R1 to R7 of section 3.4. Codes 0 to 2 hold 120 ms at most, so the
   * limit of R5 only concerns code 3.
   */
  function StandardSplit(p: Bytes): Option<seq<Bytes>> {
    if Overlong(p) then None else Split(p, RFC_EQUAL_BIT)
  }

  /** A packet announces several frames and their layout: only there can code and standard part. */
  predicate SeveralFrames(p: Bytes) {
    |p| >= 2 && p[0] % 4 == 3 && p[1] % 64 >= 2
  }

  /** Total frame bytes tell the two readings of a code 3 packet with several frames apart. */
  lemma ReadingsDiffer(p: Bytes)
    requires |p| >= 2 && p[0] % 4 == 3 && p[1] % 64 >= 2
    requires ReadManyHead(p, true).Some? && ReadManyHead(p, false).Some?
    ensures Sum(ReadManyHead(p, true).value.0) != Sum(ReadManyHead(p, false).value.0)
  {
    var count, bit := p[1] % 64, p[1] / 128 == 1;
    var (offset, rest) := ReadPadding(p).value;
    var padding := ReadPaddingSound(p);
    SharedOut(ReadManyHead(p, bit).value.0, rest, count);
    ReadSizesSound(p, offset, rest, count - 1);
    assert |SizeCodes(ReadManyHead(p, !bit).value.0)| > 0;
  }

  lemma NeverAgree(p: Bytes)
    requires |p| >= 2 && p[0] % 4 == 3 && p[1] % 64 >= 2
    requires Split(p, true).Some? && Split(p, false).Some?
    ensures Split(p, true) != Split(p, false)
  {
    var config, _, a := AcceptedIsPacked(p, true);
    var config', _, b := AcceptedIsPacked(p, false);
    ReadingsDiffer(p);
    if Alone(config, a) == Alone(config, b) { AloneSizes(config, a, b); }
  }

  lemma AloneSizes(config: Config, a: seq<Bytes>, b: seq<Bytes>)
    requires Alone(config, a) == Alone(config, b)
    ensures Sizes(a) == Sizes(b)
  {
    assert |Alone(config, a)| == |a| && |Alone(config, b)| == |b|;
    forall i | 0 <= i < |a| ensures |a[i]| == |b[i]| {
      assert |Alone(config, a)[i]| == 1 + |a[i]| && |Alone(config, b)[i]| == 1 + |b[i]|;
    }
  }

  /**
   * The code and RFC 6716 agree on a packet exactly unless it is a code 3 packet that announces several frames and
   * at least one of the two accepts it.
   */
  lemma WhereTheStandardDiffers(p: Bytes)
    ensures Split(p, CODE_EQUAL_BIT) != StandardSplit(p) <==>
      SeveralFrames(p) && (Split(p, CODE_EQUAL_BIT).Some? || StandardSplit(p).Some?)
  {
    if SeveralFrames(p) {
      if Split(p, true).Some? && Split(p, false).Some? { NeverAgree(p); }
    } else if |p| >= 2 && p[0] % 4 == 3 && p[1] % 64 == 1 {
      OneFrameEitherWay(p);
    }
  }

  /** Of the packets that either side accepts, they agree exactly on those that are not code 3 with several frames. */
  lemma AgreeIff(p: Bytes)
    requires Split(p, CODE_EQUAL_BIT).Some? || StandardSplit(p).Some?
    ensures Split(p, CODE_EQUAL_BIT) == StandardSplit(p) <==> !SeveralFrames(p)
  {
    WhereTheStandardDiffers(p);
  }

  /** A packed packet is overlong exactly when its frames last more than 120 ms together, whatever its layout. */
  lemma OverlongIff(config: Config, layout: Layout, payloads: seq<Bytes>, equalBit: bool)
    requires Carries(layout, Sizes(payloads))
    ensures Overlong(Pack(config, layout, payloads, equalBit)) <==> |payloads| * FrameDuration(config) > MAX_DURATION
  {
    var p, offset := Pack(config, layout, payloads, equalBit), |Head(config, layout, Sizes(payloads), equalBit)|;
    PackedParts(config, layout, payloads, equalBit);
    HeadByte(config, layout, Sizes(payloads), equalBit);
    assert p[0] == Head(config, layout, Sizes(payloads), equalBit)[0];
    match layout
    case Many(equal, padding) => ManyStands(p, equal, padding, Sizes(payloads), offset, equalBit);
    case _ => AtMostTwo(|payloads|, FrameDuration(config));
  }

  lemma AtMostTwo(count: nat, units: nat)
    requires count <= 2 && units <= 24
    ensures count * units <= MAX_DURATION
  {
  }

  /** Packing frames as the standard has it gives them back exactly when they last 120 ms at most. */
  lemma StandardRoundTrip(config: Config, layout: Layout, payloads: seq<Bytes>)
    requires Carries(layout, Sizes(payloads))
    ensures StandardSplit(Pack(config, layout, payloads, RFC_EQUAL_BIT))
      == if |payloads| * FrameDuration(config) <= MAX_DURATION then Some(Alone(config, payloads)) else None
  {
    OverlongIff(config, layout, payloads, RFC_EQUAL_BIT);
    RoundTrip(config, layout, payloads, RFC_EQUAL_BIT);
  }

  /** What the standard accepts is packed as the standard has it, and lasts 120 ms at most. */
  lemma StandardIsPacked(p: Bytes) returns (config: Config, layout: Layout, payloads: seq<Bytes>)
    requires StandardSplit(p).Some?
    ensures Carries(layout, Sizes(payloads)) && p == Pack(config, layout, payloads, RFC_EQUAL_BIT)
    ensures |payloads| * FrameDuration(config) <= MAX_DURATION && StandardSplit(p) == Some(Alone(config, payloads))
  {
    config, layout, payloads := AcceptedIsPacked(p, RFC_EQUAL_BIT);
    OverlongIff(config, layout, payloads, RFC_EQUAL_BIT);
  }

  /** Cutting two frames from the end of a packet. */
  lemma CutTwo(p: Bytes, config: Config, offset: nat, first: nat, second: nat)
    requires offset + first + second == |p|
    ensures Cut(p, config, offset, [first, second])
      == Some([[Toc(config, 0)] + p[offset..offset + first], [Toc(config, 0)] + p[offset + first..]])
  {
    var both, last := [first, second], [second];
    assert both[1..] == last && last[1..] == [];
    var a, b := [Toc(config, 0)] + p[offset..offset + first], [Toc(config, 0)] + p[offset + first..];
    assert p[offset + first..offset + first + second] == p[offset + first..];
    assert Cut(p, config, |p|, []) == Some([]);
    assert Cut(p, config, offset + first, last) == Some([b]) by { assert [b] + [] == [b]; }
    assert [a] + [b] == [a, b];
  }

  /** Both accept this packet of two 10 ms frames, and find different frames in it: two equal ones, or one and none. */
  lemma PolarityMatters()
    ensures Split([3, 130, 1, 7], CODE_EQUAL_BIT) == Some([[0, 1], [0, 7]])
    ensures StandardSplit([3, 130, 1, 7]) == Some([[0, 7], [0]])
  {
    TwoEqualBytes([3, 130, 1, 7]);
    OneByteAndNone([3, 130, 1, 7]);
  }

  lemma TwoEqualBytes(p: Bytes)
    requires p == [3, 130, 1, 7]
    ensures Split(p, CODE_EQUAL_BIT) == Some([[0, 1], [0, 7]])
  {
    assert ReadPadding(p) == Some((2, 2));
    var shares := Repeat(2, 1);
    assert ReadShares(p, 2, 2, 2, true).value.0 == shares == [1, 1];
    assert ReadHead(p, true) == Some(([1, 1], 2));
    CutTwo(p, 0, 2, 1, 1);
    assert p[2..3] == [p[2]] && p[3..] == [p[3]];
    assert [0] + [p[2]] == [0, 1] && [0] + [p[3]] == [0, 7];
  }

  lemma OneByteAndNone(p: Bytes)
    requires p == [3, 130, 1, 7]
    ensures StandardSplit(p) == Some([[0, 7], [0]])
  {
    assert ReadPadding(p) == Some((2, 2));
    assert ParseSize(p, 2) == Some((1, 1)) && ReadSizes(p, 3, 0, 0) == Some(([0], 3));
    var one, none: seq<nat> := [1], [0];
    assert one + none == [1, 0];
    assert ReadHead(p, false) == ReadSizes(p, 2, 2, 1) == Some(([1, 0], 3));
    CutTwo(p, 0, 3, 1, 0);
    assert p[3..4] == [p[3]] && p[4..] == [];
    assert [0] + [p[3]] == [0, 7] && [0] + p[4..] == [0];
  }

  /** The code accepts this packet of three empty frames of 60 ms, 180 ms in all. */
  lemma LengthMatters()
    ensures Split([27, 131], CODE_EQUAL_BIT).Some? && Overlong([27, 131]) && StandardSplit([27, 131]) == None
  {
    var p: Bytes := [27, 131];
    assert ReadPadding(p) == Some((2, 0));
    var sizes := Repeat(3, 0);
    assert ReadShares(p, 2, 0, 3, true).value.0 == sizes;
    assert ReadHead(p, true) == Some((sizes, 2));
    CutTwo(p, 6, 2, 0, 0);
    assert sizes[1..] == [0, 0];
  }

  lemma OneFrameEitherWay(p: Bytes)
    requires |p| >= 2 && p[1] % 64 == 1
    ensures ReadManyHead(p, true) == ReadManyHead(p, false)
  {
    if ReadPadding(p).Some? && ReadPadding(p).value.1 >= 0 {
      var rest := ReadPadding(p).value.1;
      assert Repeat(1, rest / 1) == [rest];
    }
  }

  // ---- The splitter itself ----

  /** A TeamSpeak voice payload as single-frame packets, or nothing when its layout is invalid. */
  method SplitOpusPacket(packet: Bytes) returns (result: Option<seq<Bytes>>)
    ensures result == Split(packet, CODE_EQUAL_BIT)
  {
    if |packet| == 0 { return None; }
    var head := ParseHead(packet);
    if head.None? { return None; }
    var (sizes, start) := head.value;
    if exists i :: 0 <= i < |sizes| && sizes[i] > MAX_FRAME { return None; }
    if |sizes| == 1 && packet[0] % 4 == 0 {
      assert sizes[0] == |packet| - 1;
      SingleIsItself(packet, CODE_EQUAL_BIT);
      return Some([packet]);
    }
    result := CutFrames(packet, packet[0] / 4, start, sizes);
  }

  method CutFrames(packet: Bytes, config: Config, start: nat, sizes: seq<nat>) returns (result: Option<seq<Bytes>>)
    ensures result == Cut(packet, config, start, sizes)
  {
    var offset: nat, frames: seq<Bytes> := start, [];
    assert sizes[0..] == sizes;
    PrependNothing(Cut(packet, config, start, sizes));
    for i := 0 to |sizes|
      invariant Cut(packet, config, start, sizes) == Prepend(frames, Cut(packet, config, offset, sizes[i..]))
    {
      var size := sizes[i];
      assert sizes[i..][1..] == sizes[i + 1..];
      if offset + size > |packet| { return None; }
      var frame := [Toc(config, 0)] + packet[offset..offset + size];
      offset := offset + size;
      PrependOne(frames, frame, Cut(packet, config, offset, sizes[i + 1..]));
      frames := frames + [frame];
    }
    assert frames + [] == frames;
    return Some(frames);
  }

  lemma PrependOne<T>(first: seq<T>, one: T, rest: Option<seq<T>>)
    ensures Prepend(first, Prepend([one], rest)) == Prepend(first + [one], rest)
  {
    if rest.Some? { assert first + ([one] + rest.value) == first + [one] + rest.value; }
  }

  lemma PrependNothing<T>(rest: Option<seq<T>>)
    ensures Prepend([], rest) == rest
  {
    if rest.Some? { assert [] + rest.value == rest.value; }
  }

  function Prepend<T>(first: seq<T>, rest: Option<seq<T>>): Option<seq<T>> {
    if rest.None? then None else Some(first + rest.value)
  }

  method ParseHead(packet: Bytes) returns (head: Option<(seq<nat>, nat)>)
    requires packet != []
    ensures head == ReadHead(packet, CODE_EQUAL_BIT)
  {
    var mode, offset, len := packet[0] % 4, 1, |packet| - 1;
    match mode {
      case 0 =>
        return Some((Repeat(1, len), offset));
      case 1 =>
        if len % 2 == 1 { return None; }
        return Some((Repeat(2, len / 2), offset));
      case 2 =>
        head := ParseSizes(packet, offset, len, 1);
      case _ =>
        if len < 1 { return None; }
        head := ParseManyHead(packet);
    }
  }

  method ParseManyHead(packet: Bytes) returns (head: Option<(seq<nat>, nat)>)
    requires |packet| >= 2
    ensures head == ReadManyHead(packet, CODE_EQUAL_BIT)
  {
    var ch := packet[1];
    var count := ch % 64;
    if count <= 0 || count > 48 { return None; }
    var offset, len: int := 2, |packet| - 2;
    if ch / 64 % 2 == 1 {
      var pad: int := 0;
      while true
        invariant offset + len + pad == |packet| && pad >= 0
        invariant SkipPadding(packet, offset, len) == SkipPadding(packet, 2, |packet| - 2)
        decreases |packet| - offset
      {
        if len <= 0 { return None; }
        var p := packet[offset];
        var skipped: int := if p == 255 then 254 else p;
        offset, len, pad := offset + 1, len - 1 - skipped, pad + skipped;
        if p != 255 { break; }
      }
      if len < 0 { return None; }
    }
    assert ReadPadding(packet) == Some((offset, len));
    var cbr := ch / 128 == 1;
    if !cbr {
      head := ParseSizes(packet, offset, len, count - 1);
    } else {
      if len % count != 0 { return None; }
      var share: nat := len / count;
      return Some((Repeat(count, share), offset));
    }
  }

  method ParseSizes(packet: Bytes, start: nat, len: int, more: nat) returns (head: Option<(seq<nat>, nat)>)
    requires len >= 0
    ensures head == ReadSizes(packet, start, len, more)
  {
    var sizes: seq<nat>, offset, remaining: int := [], start, len;
    BeforeNothing(ReadSizes(packet, start, len, more));
    for i := 0 to more
      invariant ReadSizes(packet, start, len, more) == Before(sizes, ReadSizes(packet, offset, remaining, more - i))
      invariant remaining >= 0
    {
      var parsed := ParseSize(packet, offset);
      if parsed.None? || parsed.value.0 > remaining - parsed.value.1 { return None; }
      offset := offset + parsed.value.1;
      remaining := remaining - parsed.value.1 - parsed.value.0;
      BeforeOne(sizes, parsed.value.0, ReadSizes(packet, offset, remaining, more - i - 1));
      sizes := sizes + [parsed.value.0];
    }
    return Some((sizes + [remaining], offset));
  }

  function Before(first: seq<nat>, rest: Option<(seq<nat>, nat)>): Option<(seq<nat>, nat)> {
    if rest.None? then None else Some((first + rest.value.0, rest.value.1))
  }

  lemma BeforeNothing(rest: Option<(seq<nat>, nat)>)
    ensures Before([], rest) == rest
  {
    if rest.Some? { assert [] + rest.value.0 == rest.value.0; }
  }

  lemma BeforeOne(first: seq<nat>, size: nat, rest: Option<(seq<nat>, nat)>)
    ensures Before(first, Before([size], rest)) == Before(first + [size], rest)
  {
    if rest.Some? { assert first + ([size] + rest.value.0) == first + [size] + rest.value.0; }
  }
}
