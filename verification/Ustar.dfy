/**
 The physical USTAR scan of scripts/release_artifact.py, against an encoder
 written from the "ustar Interchange Format" of the `pax` utility in IEEE Std
 1003.1-2017, and the tight bound it puts on the expanded stream.
 */
module Ustar {
  import opened Wrappers

  type byte = x: int | 0 <= x < 256

  const BLOCK: nat := 512
  const RECORD: nat := 10240
  const CHUNK: nat := 131072

  datatype Limits = Limits(entryCount: nat, fileBytes: nat, totalBytes: nat) {
    function MaximumStream(): nat {
      totalBytes + (entryCount + 2) * 1024 + 10 * 1024
    }
  }

  // ----- numeric and text fields -----

  function Strip(field: seq<byte>): seq<byte> {
    if field == [] then []
    else if field[0] in {0, 32} then Strip(field[1..])
    else StripRight(field)
  }

  function StripRight(field: seq<byte>): seq<byte> {
    if field == [] then []
    else if field[|field| - 1] in {0, 32} then StripRight(field[..|field| - 1])
    else field
  }

  predicate OctalDigits(s: seq<byte>) {
    forall i :: 0 <= i < |s| ==> 48 <= s[i] <= 55
  }

  function Value(s: seq<byte>): nat
    requires OctalDigits(s)
  {
    if s == [] then 0 else 8 * Value(s[..|s| - 1]) + (s[|s| - 1] - 48)
  }

  /** `_ustar_octal`: octal digits between spaces and NULs, and no base-256. */
  function Octal(field: seq<byte>): Option<nat> {
    if field != [] && field[0] >= 128 then None
    else if OctalDigits(Strip(field)) then Some(Value(Strip(field)))
    else None
  }

  function Digits(v: nat, k: nat): (s: seq<byte>)
    ensures |s| == k && OctalDigits(s)
  {
    if k == 0 then [] else Digits(v / 8, k - 1) + [48 + v % 8]
  }

  function Power8(k: nat): nat {
    if k == 0 then 1 else 8 * Power8(k - 1)
  }

  lemma {:induction false} DigitsHaveTheirValue(v: nat, k: nat)
    requires v < Power8(k)
    ensures Value(Digits(v, k)) == v
    decreases k
  {
    if k > 0 {
      DigitsHaveTheirValue(v / 8, k - 1);
      assert Digits(v, k)[..k - 1] == Digits(v / 8, k - 1);
    }
  }

  lemma {:induction false} TrailingPaddingIsStripped(s: seq<byte>, padding: seq<byte>)
    requires s != [] && s[|s| - 1] !in {0, 32}
    requires forall i :: 0 <= i < |padding| ==> padding[i] in {0, 32}
    ensures StripRight(s + padding) == s
    decreases |padding|
  {
    if padding == [] {
      assert s + padding == s;
    } else {
      var last := |padding| - 1;
      TrailingPaddingIsStripped(s, padding[..last]);
      assert (s + padding)[..|s + padding| - 1] == s + padding[..last];
    }
  }

  /** A padded octal field reads back as the number it was written for. */
  lemma OctalRoundTrip(v: nat, k: nat, padding: seq<byte>)
    requires 0 < k && v < Power8(k)
    requires forall i :: 0 <= i < |padding| ==> padding[i] in {0, 32}
    ensures Octal(Digits(v, k) + padding) == Some(v)
  {
    var s := Digits(v, k);
    TrailingPaddingIsStripped(s, padding);
    assert (s + padding)[0] == s[0];
    DigitsHaveTheirValue(v, k);
  }

  function IndexOfNul(field: seq<byte>): nat
    ensures IndexOfNul(field) <= |field|
  {
    if field == [] || field[0] == 0 then 0 else 1 + IndexOfNul(field[1..])
  }

  /** `_ustar_text`: ASCII up to the first NUL, and only NULs after it. */
  predicate TextOk(field: seq<byte>) {
    var n := IndexOfNul(field);
    && (forall i :: n <= i < |field| ==> field[i] == 0)
    && (forall i :: 0 <= i < n ==> field[i] < 128)
  }

  lemma {:induction false} NulIndex(text: seq<byte>, zeros: nat)
    requires forall i :: 0 <= i < |text| ==> text[i] != 0
    ensures IndexOfNul(text + Zeros(zeros)) == |text|
    decreases |text|
  {
    if text != [] {
      assert (text + Zeros(zeros))[1..] == text[1..] + Zeros(zeros);
      NulIndex(text[1..], zeros);
    }
  }

  function Zeros(n: nat): seq<byte> {
    seq(n, i => 0)
  }

  predicate AllZero(s: seq<byte>) {
    forall i :: 0 <= i < |s| ==> s[i] == 0
  }

  function Sum(s: seq<byte>): nat {
    if s == [] then 0 else Sum(s[..|s| - 1]) + s[|s| - 1]
  }

  lemma {:induction false} SumIsBounded(s: seq<byte>)
    ensures Sum(s) <= 255 * |s|
    decreases |s|
  {
    if s != [] {
      SumIsBounded(s[..|s| - 1]);
    }
  }

  // ----- what the scan accepts -----

  function Padded(size: nat): nat {
    (size + 511) / 512 * 512
  }

  /** One header block, apart from the running totals: its content size and whether it is a directory. */
  function Header(h: seq<byte>, limits: Limits): Option<(nat, bool)>
    requires |h| == BLOCK
  {
    if h[257..263] != [117, 115, 116, 97, 114, 0] || h[263..265] != [48, 48] then None
    else if h[156] !in {0, 48, 53} then None
    else if !TextOk(h[0..100]) || !TextOk(h[345..500]) then None
    else
      match (Octal(h[124..136]), Octal(h[148..156]))
      case (Some(size), Some(checksum)) =>
        if checksum != Sum(h[..148]) + 256 + Sum(h[156..]) then None
        else if h[156] == 53 then (if size == 0 then Some((0, true)) else None)
        else if size > limits.fileBytes then None
        else Some((size, false))
      case _ => None
  }

  /** The stream from one point on, given what came before. */
  predicate Accepts(rest: seq<byte>, entries: nat, total: nat, consumed: nat, ended: bool, limits: Limits)
    decreases |rest|
  {
    if |rest| < BLOCK || consumed + BLOCK > limits.MaximumStream() then false
    else if AllZero(rest[..BLOCK]) then
      if ended then AllZero(rest[BLOCK..]) && consumed + |rest| <= limits.MaximumStream()
      else Accepts(rest[BLOCK..], entries, total, consumed + BLOCK, true, limits)
    else if ended || entries >= limits.entryCount + 2 then false
    else
      match Header(rest[..BLOCK], limits)
      case None => false
      case Some((size, directory)) =>
        var step := BLOCK + Padded(size);
        && total + size <= limits.totalBytes
        && step <= |rest|
        && consumed + step <= limits.MaximumStream()
        && Accepts(rest[step..], entries + 1, total + size, consumed + step, false, limits)
  }

  // ----- what acceptance means, byte by byte -----

  predicate Padding(b: byte) {
    b == 0 || b == 32
  }

  /** Octal digits for this number, between NULs and spaces. */
  ghost predicate OctalField(field: seq<byte>, v: nat) {
    exists i, j :: 0 <= i <= j <= |field|
      && (forall k :: 0 <= k < i || j <= k < |field| ==> Padding(field[k]))
      && OctalDigits(field[i..j]) && Value(field[i..j]) == v
  }

  lemma {:induction false} StripRightKeepsDigits(field: seq<byte>) returns (j: nat)
    ensures j <= |field| && StripRight(field) == field[..j]
    ensures forall k :: j <= k < |field| ==> Padding(field[k])
    decreases |field|
  {
    j := |field|;
    if field != [] && field[|field| - 1] in {0, 32} {
      j := StripRightKeepsDigits(field[..|field| - 1]);
    }
  }

  lemma {:induction false} StripKeepsDigits(field: seq<byte>) returns (i: nat, j: nat)
    ensures i <= j <= |field| && Strip(field) == field[i..j]
    ensures forall k :: 0 <= k < i || j <= k < |field| ==> Padding(field[k])
    decreases |field|
  {
    if field == [] {
      i, j := 0, 0;
    } else if field[0] in {0, 32} {
      i, j := StripKeepsDigits(field[1..]);
      i, j := i + 1, j + 1;
      forall k | 0 <= k < i || j <= k < |field| ensures Padding(field[k]) {
        assert k > 0 ==> field[k] == field[1..][k - 1];
      }
    } else {
      j := StripRightKeepsDigits(field);
      i := 0;
    }
  }

  lemma OctalMeans(field: seq<byte>, v: nat)
    requires Octal(field) == Some(v)
    ensures OctalField(field, v) && (field != [] ==> field[0] < 128)
  {
    var i, j := StripKeepsDigits(field);
    assert OctalDigits(field[i..j]) && Value(field[i..j]) == v;
  }

  predicate TextUntil(field: seq<byte>, n: nat)
    requires n <= |field|
  {
    (forall i :: 0 <= i < n ==> 0 < field[i] < 128) && (forall i :: n <= i < |field| ==> field[i] == 0)
  }

  /** ASCII text, then NULs. */
  ghost predicate TextField(field: seq<byte>) {
    exists n: nat :: n <= |field| && TextUntil(field, n)
  }

  lemma {:induction false} BeforeTheNul(field: seq<byte>)
    ensures forall i :: 0 <= i < IndexOfNul(field) ==> field[i] != 0
    decreases |field|
  {
    if field != [] && field[0] != 0 {
      BeforeTheNul(field[1..]);
      assert forall i :: 0 < i < IndexOfNul(field) ==> field[i] == field[1..][i - 1];
    }
  }

  lemma TextMeans(field: seq<byte>)
    requires TextOk(field)
    ensures TextField(field)
  {
    BeforeTheNul(field);
    assert TextUntil(field, IndexOfNul(field));
  }

  lemma {:induction false} SumAdds(s: seq<byte>, t: seq<byte>)
    ensures Sum(s + t) == Sum(s) + Sum(t)
    ensures forall b: byte :: Sum([b]) == b
    decreases |t|
  {
    forall b: byte ensures Sum([b]) == b {
      assert [b][..0] == [];
    }
    if t == [] {
      assert s + t == s;
    } else {
      SumAdds(s, t[..|t| - 1]);
      assert (s + t)[..|s + t| - 1] == s + t[..|t| - 1];
    }
  }

  /**
   The header of a regular file or a directory: magic, version, type, name and
   prefix, size and checksum at the offsets the format gives them.  The checksum
   counts its own field as eight spaces.
   */
  ghost predicate StandardHeader(h: seq<byte>, size: nat, limits: Limits)
    requires |h| == 512
  {
    && h[257] == 117 && h[258] == 115 && h[259] == 116 && h[260] == 97 && h[261] == 114 && h[262] == 0
    && h[263] == 48 && h[264] == 48
    && (h[156] == 0 || h[156] == 48 || h[156] == 53)
    && TextField(h[0..100]) && TextField(h[345..500])
    && OctalField(h[124..136], size) && h[124] < 128
    && OctalField(h[148..156], Sum(h[0..148]) + 8 * 32 + Sum(h[156..512])) && h[148] < 128
    && (if h[156] == 53 then size == 0 else size <= limits.fileBytes)
  }

  lemma HeaderMeans(h: seq<byte>, limits: Limits)
    requires |h| == 512 && Header(h, limits).Some?
    ensures StandardHeader(h, Header(h, limits).value.0, limits)
    ensures Header(h, limits).value.1 <==> h[156] == 53
  {
    assert h[257..263][0] == h[257] && h[257..263][1] == h[258] && h[257..263][2] == h[259];
    assert h[257..263][3] == h[260] && h[257..263][4] == h[261] && h[257..263][5] == h[262];
    assert h[263..265][0] == h[263] && h[263..265][1] == h[264];
    assert h[..148] == h[0..148] && h[156..] == h[156..512];
    var size, checksum := Octal(h[124..136]).value, Octal(h[148..156]).value;
    TextMeans(h[0..100]);
    TextMeans(h[345..500]);
    OctalMeans(h[124..136], size);
    OctalMeans(h[148..156], checksum);
    assert h[124..136][0] == h[124] && h[148..156][0] == h[148];
  }

  /** The next multiple of the block size. */
  predicate RoundsUp(size: nat, padded: nat) {
    padded % 512 == 0 && size <= padded < size + 512
  }

  /**
   A stream of standard headers, each followed by its content in whole blocks,
   closed by two zero blocks and nothing but zeros, within the limits.
   */
  ghost predicate Conforms(rest: seq<byte>, entries: nat, total: nat, limits: Limits)
    decreases |rest|
  {
    && |rest| >= 512
    && if forall i :: 0 <= i < 512 ==> rest[i] == 0 then
         |rest| >= 1024 && forall i :: 0 <= i < |rest| ==> rest[i] == 0
       else
         && entries < limits.entryCount + 2
         && exists size: nat, padded: nat ::
              && StandardHeader(rest[..512], size, limits) && RoundsUp(size, padded)
              && total + size <= limits.totalBytes && 512 + padded <= |rest|
              && Conforms(rest[512 + padded..], entries + 1, total + size, limits)
  }

  /** Everything an accepted stream is, header by header. */
  lemma {:induction false} AcceptedStreamsConform(
    rest: seq<byte>, entries: nat, total: nat, consumed: nat, limits: Limits)
    requires Accepts(rest, entries, total, consumed, false, limits)
    ensures Conforms(rest, entries, total, limits)
    ensures consumed + |rest| <= limits.totalBytes + (limits.entryCount + 2) * 1024 + 10240
    decreases |rest|
  {
    hide Header, StandardHeader, Conforms;
    if AllZero(rest[..BLOCK]) {
      ZerosConform(rest, entries, total, consumed, limits);
    } else {
      var size := Header(rest[..BLOCK], limits).value.0;
      var next := BLOCK + Padded(size);
      AcceptedStreamsConform(rest[next..], entries + 1, total + size, consumed + next, limits);
      HeaderMeans(rest[..BLOCK], limits);
      HeaderConforms(rest, entries, total, size, Padded(size), limits);
    }
  }

  lemma ZerosConform(rest: seq<byte>, entries: nat, total: nat, consumed: nat, limits: Limits)
    requires Accepts(rest, entries, total, consumed, false, limits) && AllZero(rest[..BLOCK])
    ensures Conforms(rest, entries, total, limits)
    ensures consumed + |rest| <= limits.MaximumStream()
  {
    hide Header, StandardHeader;
    var tail := rest[BLOCK..];
    assert Accepts(tail, entries, total, consumed + BLOCK, true, limits);
    forall i | 0 <= i < |rest| ensures rest[i] == 0 {
      if i < 512 {
        assert rest[..BLOCK][i] == 0;
      } else if i < 1024 {
        assert tail[..BLOCK][i - 512] == 0;
      } else {
        assert tail[BLOCK..][i - 1024] == 0;
      }
    }
  }

  lemma HeaderConforms(rest: seq<byte>, entries: nat, total: nat, size: nat, padded: nat, limits: Limits)
    requires |rest| >= 512 && !AllZero(rest[..512]) && entries < limits.entryCount + 2
    requires StandardHeader(rest[..512], size, limits) && RoundsUp(size, padded)
    requires total + size <= limits.totalBytes && 512 + padded <= |rest|
    requires Conforms(rest[512 + padded..], entries + 1, total + size, limits)
    ensures Conforms(rest, entries, total, limits)
  {
    hide StandardHeader;
    var k :| 0 <= k < 512 && rest[..512][k] != 0;
    assert rest[k] != 0;
  }

  /** `_read_exact_bounded`, over a stream of which `available` bytes are left. */
  method ReadExactBounded(available: nat, size: nat, consumed: nat, maximum: nat) returns (ok: bool)
    requires consumed <= maximum
    ensures ok <==> size <= available && consumed + size <= maximum
  {
    var remaining, read := size, 0;
    while remaining > 0
      invariant remaining + read == size && read <= available && consumed + read <= maximum
    {
      var chunk := if CHUNK < remaining then CHUNK else remaining;
      if available - read < chunk {
        chunk := available - read;
      }
      if chunk == 0 || consumed + read + chunk > maximum {
        return false;
      }
      read, remaining := read + chunk, remaining - chunk;
    }
    return true;
  }

  /** `_inspect_ustar_headers`: terminates on every stream and decides exactly `Accepts`. */
  method InspectHeaders(stream: seq<byte>, limits: Limits) returns (ok: bool)
    ensures ok <==> Accepts(stream, 0, 0, 0, false, limits)
    ensures ok ==>
      Conforms(stream, 0, 0, limits)
      && |stream| <= limits.totalBytes + (limits.entryCount + 2) * 1024 + 10240
  {
    hide Header, AllZero, Conforms;
    var at: nat, entries: nat, total: nat, zeroBlocks: nat := 0, 0, 0, 0;
    while true
      invariant at <= |stream| && at <= limits.MaximumStream() && zeroBlocks <= 1
      invariant Accepts(stream, 0, 0, 0, false, limits) <==>
                Accepts(stream[at..], entries, total, at, zeroBlocks == 1, limits)
      decreases |stream| - at
    {
      if |stream| - at < BLOCK || at + BLOCK > limits.MaximumStream() {
        return false;
      }
      var header := stream[at..][..BLOCK];
      assert stream[at..][BLOCK..] == stream[at + BLOCK..];
      if AllZero(header) {
        if zeroBlocks == 1 {
          ok := ReadTrailer(stream, at + BLOCK, limits);
          if ok {
            AcceptedStreamsConform(stream, 0, 0, 0, limits);
          }
          return;
        }
        at, zeroBlocks := at + BLOCK, 1;
        continue;
      }
      if zeroBlocks == 1 || entries >= limits.entryCount + 2 {
        return false;
      }
      var parsed := Header(header, limits);
      if parsed.None? {
        return false;
      }
      var size := parsed.value.0;
      if total + size > limits.totalBytes {
        return false;
      }
      var read := ReadExactBounded(|stream| - at - BLOCK, Padded(size), at + BLOCK, limits.MaximumStream());
      if !read {
        return false;
      }
      assert stream[at..][BLOCK + Padded(size)..] == stream[at + BLOCK + Padded(size)..];
      at, entries, total := at + BLOCK + Padded(size), entries + 1, total + size;
    }
  }

  /** What follows the end marker: zeros, within the bound. */
  method ReadTrailer(stream: seq<byte>, start: nat, limits: Limits) returns (ok: bool)
    requires start <= |stream| && start <= limits.MaximumStream()
    ensures ok <==> AllZero(stream[start..]) && |stream| <= limits.MaximumStream()
  {
    var at := start;
    while at < |stream|
      invariant start <= at <= |stream| && at <= limits.MaximumStream()
      invariant forall i :: start <= i < at ==> stream[i] == 0
    {
      var next := if |stream| - at < CHUNK then |stream| else at + CHUNK;
      if next > limits.MaximumStream() {
        return false;
      }
      if !AllZero(stream[at..next]) {
        assert exists i :: at <= i < next && stream[i] != 0 by {
          var k :| 0 <= k < next - at && stream[at..next][k] != 0;
          assert stream[at + k] != 0;
        }
        var i :| at <= i < next && stream[i] != 0;
        assert stream[start..][i - start] != 0;
        return false;
      }
      assert forall i :: at <= i < next ==> stream[i] == stream[at..next][i - at];
      at := next;
    }
    return true;
  }

  // ----- the encoder -----

  /** One archive member; the fields the scan does not look at are arbitrary. */
  datatype Member = Member(
    name: seq<byte>,
    meta: seq<byte>,
    mtime: seq<byte>,
    directory: bool,
    content: seq<byte>,
    link: seq<byte>,
    owner: seq<byte>,
    prefix: seq<byte>,
    pad: seq<byte>)
  {
    predicate Valid() {
      && |name| <= 100 && PlainText(name) && |meta| == 24 && |mtime| == 12
      && |link| == 100 && |owner| == 80 && |prefix| <= 155 && PlainText(prefix) && |pad| == 12
      && |content| < Power8(11)
      && (directory ==> content == [])
    }

    function TypeFlag(): byte {
      if directory then 53 else 48
    }

    /** The 148 bytes before the checksum. */
    function Head(): (s: seq<byte>)
      requires Valid()
      ensures |s| == 148
    {
      NameField() + meta + SizeField() + mtime
    }

    function NameField(): (s: seq<byte>)
      requires Valid()
      ensures |s| == 100
    {
      name + Zeros(100 - |name|)
    }

    function PrefixField(): (s: seq<byte>)
      requires Valid()
      ensures |s| == 155
    {
      prefix + Zeros(155 - |prefix|)
    }

    function SizeField(): (s: seq<byte>)
      requires Valid()
      ensures |s| == 12
    {
      Digits(|content|, 11) + [0]
    }

    /** The 356 bytes after it. */
    function Tail(): (s: seq<byte>)
      requires Valid()
      ensures |s| == 356
    {
      [TypeFlag()] + link + [117, 115, 116, 97, 114, 0] + [48, 48] + owner + PrefixField() + pad
    }

    function Checksum(): nat
      requires Valid()
    {
      Sum(Head()) + 256 + Sum(Tail())
    }

    function ChecksumField(): (s: seq<byte>)
      requires Valid()
      ensures |s| == 8
    {
      Digits(Checksum(), 6) + [0, 32]
    }

    function Block(): (s: seq<byte>)
      requires Valid()
      ensures |s| == BLOCK
    {
      Head() + ChecksumField() + Tail()
    }

    function Encoded(): (s: seq<byte>)
      requires Valid()
      ensures |s| == BLOCK + Padded(|content|)
    {
      Block() + (content + Zeros(Padded(|content|) - |content|))
    }
  }

  predicate PlainText(text: seq<byte>) {
    forall i :: 0 <= i < |text| ==> 0 < text[i] < 128
  }

  lemma PlainTextIsOk(text: seq<byte>, zeros: nat)
    requires PlainText(text)
    ensures TextOk(text + Zeros(zeros))
  {
    NulIndex(text, zeros);
  }

  /** The fields of an encoded header, at the offsets the standard gives them. */
  lemma HeadFields(m: Member)
    requires m.Valid()
    ensures m.Head()[0..100] == m.NameField() && m.Head()[124..136] == m.SizeField()
  {
  }

  lemma TailFields(m: Member)
    requires m.Valid()
    ensures m.Tail()[0] == m.TypeFlag() && m.Tail()[101..107] == [117, 115, 116, 97, 114, 0]
    ensures m.Tail()[107..109] == [48, 48] && m.Tail()[189..344] == m.PrefixField()
  {
  }

  lemma BlockFields(m: Member)
    requires m.Valid()
    ensures
      var h := m.Block();
      && h[..148] == m.Head() && h[148..156] == m.ChecksumField() && h[156..] == m.Tail()
      && h[0..100] == m.NameField() && h[124..136] == m.SizeField()
      && h[156] == m.TypeFlag() && h[257..263] == [117, 115, 116, 97, 114, 0] && h[263..265] == [48, 48]
      && h[345..500] == m.PrefixField()
  {
    HeadFields(m);
    TailFields(m);
    hide Member.Head, Member.Tail, Member.ChecksumField;
    var h := m.Block();
    assert h[156..] == m.Tail();
    assert h[..148] == m.Head();
    assert h[0..100] == h[..148][0..100];
    assert h[124..136] == h[..148][124..136];
    assert h[257..263] == h[156..][101..107];
    assert h[263..265] == h[156..][107..109];
    assert h[345..500] == h[156..][189..344];
  }

  lemma ChecksumFits(m: Member)
    requires m.Valid()
    ensures Octal(m.ChecksumField()) == Some(m.Checksum())
  {
    SumIsBounded(m.Head());
    SumIsBounded(m.Tail());
    assert Power8(6) == 262144;
    OctalRoundTrip(m.Checksum(), 6, [0, 32]);
  }

  /** The scan reads an encoded header as what it was written from. */
  lemma HeaderRoundTrip(m: Member, limits: Limits)
    requires m.Valid() && |m.content| <= limits.fileBytes
    ensures Header(m.Block(), limits) == Some((|m.content|, m.directory))
    ensures !AllZero(m.Block())
  {
    BlockFields(m);
    PlainTextIsOk(m.name, 100 - |m.name|);
    PlainTextIsOk(m.prefix, 155 - |m.prefix|);
    OctalRoundTrip(|m.content|, 11, [0]);
    ChecksumFits(m);
    assert m.Block()[156] != 0;
    hide Octal, TextOk, Sum, Member.Block, Member.ChecksumField, Member.NameField, Member.PrefixField;
  }

  function EncodeAll(members: seq<Member>): seq<byte>
    requires forall i :: 0 <= i < |members| ==> members[i].Valid()
  {
    if members == [] then [] else members[0].Encoded() + EncodeAll(members[1..])
  }

  function Contents(members: seq<Member>): nat {
    if members == [] then 0 else |members[0].content| + Contents(members[1..])
  }

  /** Members, then at least two zero blocks. */
  function Archive(members: seq<Member>, zeros: nat): seq<byte>
    requires forall i :: 0 <= i < |members| ==> members[i].Valid()
  {
    EncodeAll(members) + Zeros(zeros)
  }

  predicate WithinLimits(members: seq<Member>, limits: Limits) {
    && |members| <= limits.entryCount + 2
    && Contents(members) <= limits.totalBytes
    && forall i :: 0 <= i < |members| ==> members[i].Valid() && |members[i].content| <= limits.fileBytes
  }

  // ----- acceptance of encodings -----

  /** Two zero blocks and a zero trailer are accepted exactly within the bound. */
  lemma EndIsAccepted(zeros: nat, entries: nat, total: nat, consumed: nat, limits: Limits)
    requires zeros >= 2 * BLOCK
    ensures Accepts(Zeros(zeros), entries, total, consumed, false, limits) <==> consumed + zeros <= limits.MaximumStream()
  {
    assert Zeros(zeros)[BLOCK..] == Zeros(zeros - BLOCK);
    assert AllZero(Zeros(zeros)[..BLOCK]) && AllZero(Zeros(zeros - BLOCK)[..BLOCK]);
    assert AllZero(Zeros(zeros - BLOCK)[BLOCK..]);
  }

  lemma FirstMember(m: Member, rest: seq<byte>)
    requires m.Valid()
    ensures
      var s := m.Encoded() + rest;
      && s[..BLOCK] == m.Block() && s[|m.Encoded()|..] == rest && |s| == |m.Encoded()| + |rest|
  {
    assert (m.Encoded() + rest)[..BLOCK] == m.Encoded()[..BLOCK];
  }

  /** The scan takes one encoded member off the front. */
  lemma MemberIsAccepted(m: Member, rest: seq<byte>, entries: nat, total: nat, consumed: nat, limits: Limits)
    requires m.Valid() && |m.content| <= limits.fileBytes
    requires entries < limits.entryCount + 2 && total + |m.content| <= limits.totalBytes
    ensures
      var step := BLOCK + Padded(|m.content|);
      Accepts(m.Encoded() + rest, entries, total, consumed, false, limits) <==>
      consumed + step <= limits.MaximumStream() &&
      Accepts(rest, entries + 1, total + |m.content|, consumed + step, false, limits)
  {
    hide Header, AllZero, Member.Encoded, Member.Block, Padded;
    FirstMember(m, rest);
    HeaderRoundTrip(m, limits);
  }

  lemma ArchiveSplits(members: seq<Member>, zeros: nat)
    requires members != [] && forall i :: 0 <= i < |members| ==> members[i].Valid()
    ensures Archive(members, zeros) == members[0].Encoded() + Archive(members[1..], zeros)
    ensures |Archive(members, zeros)| ==
            BLOCK + Padded(|members[0].content|) + |Archive(members[1..], zeros)|
  {
    hide Member.Valid, Member.Encoded;
    var first, rest := members[0].Encoded(), EncodeAll(members[1..]);
    assert (first + rest) + Zeros(zeros) == first + (rest + Zeros(zeros));
  }

  /** A well-formed encoding within the limits is accepted exactly when it fits the stream bound. */
  lemma {:induction false} EncodingIsAccepted(
    members: seq<Member>, zeros: nat, entries: nat, total: nat, consumed: nat, limits: Limits)
    requires forall i :: 0 <= i < |members| ==> members[i].Valid() && |members[i].content| <= limits.fileBytes
    requires entries + |members| <= limits.entryCount + 2
    requires total + Contents(members) <= limits.totalBytes
    requires zeros >= 2 * BLOCK
    ensures Accepts(Archive(members, zeros), entries, total, consumed, false, limits) <==>
            consumed + |Archive(members, zeros)| <= limits.MaximumStream()
    decreases |members|
  {
    hide Member.Valid, Accepts, Member.Encoded, EncodeAll, Padded, Archive;
    if members == [] {
      EmptyArchive(zeros);
      EndIsAccepted(zeros, entries, total, consumed, limits);
    } else {
      var m := members[0];
      ArchiveSplits(members, zeros);
      MemberIsAccepted(m, Archive(members[1..], zeros), entries, total, consumed, limits);
      EncodingIsAccepted(
        members[1..], zeros, entries + 1, total + |m.content|, consumed + BLOCK + Padded(|m.content|), limits);
    }
  }

  lemma EmptyArchive(zeros: nat)
    ensures Archive([], zeros) == Zeros(zeros)
  {
  }

  // ----- the bound -----

  function Records(n: nat): nat {
    (n + RECORD - 1) / RECORD * RECORD
  }

  function FilesIn(members: seq<Member>): nat {
    if members == [] then 0 else (if members[0].directory then 0 else 1) + FilesIn(members[1..])
  }

  /** The blocks of a member: its header and its padded content. */
  function Blocks(members: seq<Member>): nat {
    if members == [] then 0 else 1 + (|members[0].content| + 511) / 512 + Blocks(members[1..])
  }

  lemma {:induction false} EncodedSize(members: seq<Member>)
    requires forall i :: 0 <= i < |members| ==> members[i].Valid()
    ensures |EncodeAll(members)| == BLOCK * Blocks(members)
    decreases |members|
  {
    if members != [] {
      EncodedSize(members[1..]);
      assert |members[0].Encoded()| == BLOCK + Padded(|members[0].content|);
      hide Member.Encoded;
    }
  }

  lemma {:induction false} BlocksAreFew(members: seq<Member>)
    requires forall i :: 0 <= i < |members| ==> members[i].Valid()
    ensures BLOCK * Blocks(members) <= BLOCK * |members| + Contents(members) + 511 * FilesIn(members)
    decreases |members|
  {
    if members != [] {
      BlocksAreFew(members[1..]);
      var size := |members[0].content|;
      assert 512 * ((size + 511) / 512) <= size + if members[0].directory then 0 else 511;
    }
  }

  lemma RecordsOfBlocks(k: nat)
    ensures Records(BLOCK * k) <= BLOCK * k + RECORD - BLOCK
  {
    var q := (BLOCK * k + RECORD - 1) / RECORD;
    assert RECORD * q <= BLOCK * k + RECORD - 1;
    assert 20 * q <= k + 19;
  }

  lemma {:induction false} ADirectoryIsNotAFile(members: seq<Member>, i: nat)
    requires i < |members| && members[i].directory
    ensures FilesIn(members) < |members|
    decreases |members|
  {
    if i == 0 {
      AtMostAll(members[1..]);
    } else {
      ADirectoryIsNotAFile(members[1..], i - 1);
    }
  }

  lemma {:induction false} AtMostAll(members: seq<Member>)
    ensures FilesIn(members) <= |members|
    decreases |members|
  {
    if members != [] {
      AtMostAll(members[1..]);
    }
  }

  /**
   Any archive within the limits, padded to a record, fits the bound, unless
   it uses every one of its fewer than 512 allowed headers for a regular file.
   */
  lemma TightBound(members: seq<Member>, limits: Limits)
    requires WithinLimits(members, limits)
    requires FilesIn(members) < |members| || |members| < limits.entryCount + 2 || |members| >= 512
    ensures Records(|EncodeAll(members)| + 2 * BLOCK) <= limits.MaximumStream()
  {
    EncodedSize(members);
    BlocksAreFew(members);
    AtMostAll(members);
    RecordsOfBlocks(Blocks(members) + 2);
    hide EncodeAll, Blocks, Contents, FilesIn, Records;
    assert BLOCK * (Blocks(members) + 2) == |EncodeAll(members)| + 2 * BLOCK;
  }

  /** So every archive with a directory header is accepted. */
  lemma ArchivesWithADirectoryAreAccepted(members: seq<Member>, i: nat, limits: Limits)
    requires WithinLimits(members, limits) && i < |members| && members[i].directory
    ensures
      var size := |EncodeAll(members)|;
      Accepts(Archive(members, Records(size + 2 * BLOCK) - size), 0, 0, 0, false, limits)
  {
    ADirectoryIsNotAFile(members, i);
    TightBound(members, limits);
    var size := |EncodeAll(members)|;
    EncodingIsAccepted(members, Records(size + 2 * BLOCK) - size, 0, 0, 0, limits);
  }

  /** Without one it may be refused: three files of 6657, 1 and 1 bytes under limits of their own size. */
  lemma ThreeFilesDoNotFit(members: seq<Member>, limits: Limits)
    requires |members| == 3 && forall i :: 0 <= i < 3 ==> members[i].Valid() && !members[i].directory
    requires |members[0].content| == 6657 && |members[1].content| == 1 && |members[2].content| == 1
    requires limits == Limits(1, 6657, 6659)
    ensures WithinLimits(members, limits)
    ensures
      var size := |EncodeAll(members)|;
      !Accepts(Archive(members, Records(size + 2 * BLOCK) - size), 0, 0, 0, false, limits)
  {
    hide EncodeAll, Accepts, Blocks, Contents, Member.Valid, Archive, Records;
    ThreeFiles(members);
    EncodedSize(members);
    assert |EncodeAll(members)| == 9728;
    TwoRecords();
    EncodingIsAccepted(members, 10752, 0, 0, 0, limits);
    ArchiveLength(members, 10752);
  }

  lemma TwoRecords()
    ensures Records(9728 + 2 * BLOCK) == 20480
  {
  }

  lemma ArchiveLength(members: seq<Member>, zeros: nat)
    requires forall i :: 0 <= i < |members| ==> members[i].Valid()
    ensures |Archive(members, zeros)| == |EncodeAll(members)| + zeros
  {
    hide EncodeAll, Member.Valid;
  }

  lemma ThreeFiles(members: seq<Member>)
    requires |members| == 3
    requires |members[0].content| == 6657 && |members[1].content| == 1 && |members[2].content| == 1
    ensures Blocks(members) == 19 && Contents(members) == 6659
  {
    assert members[1..][1..] == members[2..] && members[2..][1..] == members[3..];
    assert Contents(members[3..]) == 0 && Blocks(members[3..]) == 0;
    assert Contents(members[2..]) == 1 && Blocks(members[2..]) == 2;
    assert Contents(members[1..]) == 2 && Blocks(members[1..]) == 4;
  }
}
