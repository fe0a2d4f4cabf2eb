/**
 The kernel's process record and the identity taken from it (src/environment.rs
 `linux_process_identity`). The record names the process in parentheses, in bytes the process
 itself chooses; the identity must depend on the numbers around that name only.
 */
module StatRecord {
  import opened Options
  import opened Text

  type byte = b: int | 0 <= b < 256

  const SPACE: byte := 32
  const OPEN: byte := 40
  const CLOSE: byte := 41
  const NEWLINE: byte := 10

  const U32_MAX := 0xFFFF_FFFF
  const U64_MAX := 0xFFFF_FFFF_FFFF_FFFF
  const I32_MAX := 0x7FFF_FFFF

  /** What the identity is a digest of. */
  datatype Facts = Facts(boot: string, pid: nat, start: nat, group: nat)

  // ---------------------------------------------------------------- reading bytes

  predicate PairAt(s: seq<byte>, first: byte, second: byte, i: nat) {
    i + 1 < |s| && s[i] == first && s[i + 1] == second
  }

  function FirstPair(s: seq<byte>, first: byte, second: byte): (at: Option<nat>)
    ensures at.Some? ==>
              PairAt(s, first, second, at.value) && forall i: nat :: i < at.value ==> !PairAt(s, first, second, i)
    ensures at.None? ==> forall i: nat :: !PairAt(s, first, second, i)
  {
    if |s| < 2 then None
    else if PairAt(s, first, second, 0) then Some(0)
    else
      var rest := FirstPair(s[1..], first, second);
      assert forall i: nat :: PairAt(s[1..], first, second, i) == PairAt(s, first, second, i + 1);
      assert forall i: nat :: i > 0 ==> PairAt(s, first, second, i) == PairAt(s[1..], first, second, i - 1);
      if rest.None? then None else Some(rest.value + 1)
  }

  function LastPair(s: seq<byte>, first: byte, second: byte): (at: Option<nat>)
    ensures at.Some? ==>
              PairAt(s, first, second, at.value) && forall i: nat :: i > at.value ==> !PairAt(s, first, second, i)
    ensures at.None? ==> forall i: nat :: !PairAt(s, first, second, i)
  {
    if |s| < 2 then None
    else if PairAt(s, first, second, |s| - 2) then Some(|s| - 2)
    else
      assert forall i: nat :: i + 2 < |s| ==> PairAt(s[..|s| - 1], first, second, i) == PairAt(s, first, second, i);
      LastPair(s[..|s| - 1], first, second)
  }

  predicate Digit(b: byte) {
    48 <= b <= 57
  }

  /** Decimal digits only, at most `max`; the value of the digits otherwise. */
  function DigitsValue(s: seq<byte>, max: nat): Option<nat> {
    if s == [] then Some(0)
    else
      var front := DigitsValue(s[..|s| - 1], max);
      if front.None? || !Digit(s[|s| - 1]) then None
      else
        var value := front.value * 10 + (s[|s| - 1] - 48);
        if value > max then None else Some(value)
  }

  /** `parse::<u32>` and `parse::<u64>`: one leading plus sign is allowed. */
  function ParseUnsigned(s: seq<byte>, max: nat): Option<nat> {
    var digits := if s != [] && s[0] == 43 then s[1..] else s;
    if digits == [] then None else DigitsValue(digits, max)
  }

  predicate IsBlank(b: byte) {
    b == 32 || b == 9 || b == 10 || b == 12 || b == 13
  }

  /** `split_ascii_whitespace`, with `word` the field being read. */
  function Words(s: seq<byte>, word: seq<byte>): seq<seq<byte>> {
    if s == [] then (if word == [] then [] else [word])
    else if IsBlank(s[0]) then (if word == [] then [] else [word]) + Words(s[1..], [])
    else Words(s[1..], word + [s[0]])
  }

  predicate Continues(s: seq<byte>, i: nat) {
    i < |s| && 0x80 <= s[i] <= 0xBF
  }

  /** How many bytes the first encoded character takes; none if it is not well formed
      (Unicode standard, table 3-7). */
  function CharLength(s: seq<byte>): (n: Option<nat>)
    requires s != []
    ensures n.Some? ==> 1 <= n.value <= |s|
  {
    var b := s[0];
    if b < 0x80 then Some(1)
    else if 0xC2 <= b <= 0xDF && Continues(s, 1) then Some(2)
    else if 0xE0 <= b <= 0xEF && Continues(s, 1) && Continues(s, 2)
            && (b == 0xE0 ==> s[1] >= 0xA0) && (b == 0xED ==> s[1] <= 0x9F) then Some(3)
    else if 0xF0 <= b <= 0xF4 && Continues(s, 1) && Continues(s, 2) && Continues(s, 3)
            && (b == 0xF0 ==> s[1] >= 0x90) && (b == 0xF4 ==> s[1] <= 0x8F) then Some(4)
    else None
  }

  predicate ValidUtf8(s: seq<byte>)
    decreases |s|
  {
    s == [] || (CharLength(s).Some? && ValidUtf8(s[CharLength(s).value..]))
  }

  // ---------------------------------------------------------------- valid text is encoded text

  predicate Scalar(c: nat) {
    c < 0xD800 || 0xE000 <= c <= 0x10FFFF
  }

  /** The encoding form UTF-8. */
  function Encoded(c: nat): seq<byte>
    requires Scalar(c)
  {
    if c < 0x80 then [c]
    else if c < 0x800 then [0xC0 + c / 64, 0x80 + c % 64]
    else if c < 0x1_0000 then [0xE0 + c / 64 / 64, 0x80 + c / 64 % 64, 0x80 + c % 64]
    else [0xF0 + c / 64 / 64 / 64, 0x80 + c / 64 / 64 % 64, 0x80 + c / 64 % 64, 0x80 + c % 64]
  }

  function EncodedText(text: seq<nat>): seq<byte>
    requires forall c :: c in text ==> Scalar(c)
  {
    if text == [] then [] else Encoded(text[0]) + EncodedText(text[1..])
  }

  lemma CharIsRead(c: nat, rest: seq<byte>)
    requires Scalar(c)
    ensures CharLength(Encoded(c) + rest) == Some(|Encoded(c)|)
  {
    var s := Encoded(c) + rest;
    assert forall i :: 0 <= i < |Encoded(c)| ==> s[i] == Encoded(c)[i];
  }

  lemma SixBits(high: nat, low: nat)
    requires low < 64
    ensures (high * 64 + low) / 64 == high && (high * 64 + low) % 64 == low
  {
  }

  lemma ThreeIsEncoded(a: nat, b: nat, c: nat)
    requires a <= 15 && b < 64 && c < 64 && (a == 0 ==> b >= 0x20) && (a == 13 ==> b <= 0x1F)
    ensures var n := (a * 64 + b) * 64 + c; Scalar(n) && Encoded(n) == [0xE0 + a, 0x80 + b, 0x80 + c]
  {
    SixBits(a * 64 + b, c);
    SixBits(a, b);
  }

  lemma FourIsEncoded(a: nat, b: nat, c: nat, d: nat)
    requires a <= 4 && b < 64 && c < 64 && d < 64 && (a == 0 ==> b >= 0x10) && (a == 4 ==> b <= 0x0F)
    ensures var n := ((a * 64 + b) * 64 + c) * 64 + d;
            Scalar(n) && Encoded(n) == [0xF0 + a, 0x80 + b, 0x80 + c, 0x80 + d]
  {
    SixBits((a * 64 + b) * 64 + c, d);
    SixBits(a * 64 + b, c);
    SixBits(a, b);
  }

  lemma CharIsEncoded(s: seq<byte>) returns (c: nat)
    requires s != [] && CharLength(s).Some?
    ensures Scalar(c) && Encoded(c) == s[..CharLength(s).value]
  {
    var n, first: int := CharLength(s).value, s[0];
    if n == 1 {
      c := first;
    } else {
      var second: int := s[1];
      if n == 2 {
        SixBits(first - 0xC0, second - 0x80);
        c := (first - 0xC0) * 64 + (second - 0x80);
      } else if n == 3 {
        var third: int := s[2];
        ThreeIsEncoded(first - 0xE0, second - 0x80, third - 0x80);
        c := ((first - 0xE0) * 64 + (second - 0x80)) * 64 + (third - 0x80);
      } else {
        var third: int, fourth: int := s[2], s[3];
        FourIsEncoded(first - 0xF0, second - 0x80, third - 0x80, fourth - 0x80);
        c := (((first - 0xF0) * 64 + (second - 0x80)) * 64 + (third - 0x80)) * 64 + (fourth - 0x80);
      }
    }
  }

  lemma {:induction false} EncodedIsValid(text: seq<nat>)
    requires forall c :: c in text ==> Scalar(c)
    ensures ValidUtf8(EncodedText(text))
  {
    if text == [] {
    } else {
      var rest := EncodedText(text[1..]);
      EncodedIsValid(text[1..]);
      CharIsRead(text[0], rest);
      assert (Encoded(text[0]) + rest)[|Encoded(text[0])|..] == rest;
    }
  }

  /** The bytes accepted as text are exactly the encodings of sequences of Unicode scalar values. */
  lemma {:induction false} ValidIsEncoded(s: seq<byte>) returns (text: seq<nat>)
    requires ValidUtf8(s)
    ensures (forall c :: c in text ==> Scalar(c)) && EncodedText(text) == s
    decreases |s|
  {
    if s == [] {
      text := [];
    } else {
      var n := CharLength(s).value;
      var c := CharIsEncoded(s);
      var rest := ValidIsEncoded(s[n..]);
      text := [c] + rest;
      assert text[1..] == rest && s == s[..n] + s[n..];
    }
  }

  // ---------------------------------------------------------------- the boot identifier

  function TrimStart(s: string): string {
    if s != [] && IsSpace(s[0]) then TrimStart(s[1..]) else s
  }

  function TrimEnd(s: string): string {
    if s != [] && IsSpace(s[|s| - 1]) then TrimEnd(s[..|s| - 1]) else s
  }

  function Trim(s: string): string {
    TrimEnd(TrimStart(s))
  }

  /** 36 characters, hexadecimal but for four hyphens. */
  predicate BootId(s: string) {
    |s| == 36 && forall i :: 0 <= i < 36 ==>
      if i == 8 || i == 13 || i == 18 || i == 23 then s[i] == '-'
      else '0' <= s[i] <= '9' || 'a' <= s[i] <= 'f' || 'A' <= s[i] <= 'F'
  }

  // ---------------------------------------------------------------- the parser

  function ParseFacts(pid: nat, stat: seq<byte>, boot: string): Option<Facts> {
    if pid <= 1 || pid > I32_MAX then None
    else
      var start := FirstPair(stat, SPACE, OPEN);
      if start.None? then None
      else
        var open := start.value;
        if !ValidUtf8(stat[..open]) || ParseUnsigned(stat[..open], U32_MAX) != Some(pid) then None
        else
          var end := LastPair(stat, CLOSE, SPACE);
          if end.None? || end.value < open + 2 || !ValidUtf8(stat[end.value + 2..]) then None
          else
            var fields := Words(stat[end.value + 2..], []);
            if |fields| <= 19 then None
            else
              var group, ticks := ParseUnsigned(fields[2], U32_MAX), ParseUnsigned(fields[19], U64_MAX);
              if group.None? || ticks.None? || group.value == 0 || group.value > I32_MAX
                 || !BootId(Trim(boot))
              then None
              else Some(Facts(Trim(boot), pid, ticks.value, group.value))
  }

  function Identity(digest: Facts -> string, pid: nat, stat: seq<byte>, boot: string): Option<string> {
    match ParseFacts(pid, stat, boot)
    case None => None
    case Some(facts) => Some("linux-proc-v1:" + digest(facts))
  }

  // ---------------------------------------------------------------- the printed record

  function Decimal(n: nat): (s: seq<byte>)
    ensures s != [] && forall b :: b in s ==> Digit(b)
  {
    if n < 10 then [48 + n] else Decimal(n / 10) + [48 + n % 10]
  }

  /** A field of the record: visible ASCII, and no closing parenthesis. */
  predicate Field(f: seq<byte>) {
    f != [] && forall b :: b in f ==> 33 <= b <= 126 && b != CLOSE
  }

  function Joined(fields: seq<seq<byte>>): seq<byte> {
    if fields == [] then [] else if |fields| == 1 then fields[0] else fields[0] + [SPACE] + Joined(fields[1..])
  }

  /** The record as the kernel prints it, for a process that calls itself `name`. */
  function Printed(pid: nat, name: seq<byte>, fields: seq<seq<byte>>): seq<byte> {
    Decimal(pid) + [SPACE, OPEN] + name + [CLOSE, SPACE] + (Joined(fields) + [NEWLINE])
  }

  // ---------------------------------------------------------------- reading back what was printed

  lemma {:induction false} DecimalReads(n: nat, max: nat)
    requires n <= max
    ensures DigitsValue(Decimal(n), max) == Some(n)
  {
    if n < 10 {
      assert DigitsValue([], max) == Some(0);
      assert [48 + n][..0] == [];
    } else {
      DecimalReads(n / 10, max);
      var s := Decimal(n);
      assert s[..|s| - 1] == Decimal(n / 10);
    }
  }

  lemma {:induction false} DecimalTooLarge(n: nat, max: nat)
    requires n > max
    ensures DigitsValue(Decimal(n), max) == None
  {
    if n < 10 {
      assert DigitsValue([], max) == Some(0);
      assert [48 + n][..0] == [];
    } else {
      var s := Decimal(n);
      assert s[..|s| - 1] == Decimal(n / 10);
      if n / 10 > max { DecimalTooLarge(n / 10, max); } else { DecimalReads(n / 10, max); }
    }
  }

  /** A printed number is read back exactly, and refused when it does not fit. */
  lemma ParseDecimal(n: nat, max: nat)
    ensures ParseUnsigned(Decimal(n), max) == if n <= max then Some(n) else None
  {
    assert Digit(Decimal(n)[0]);
    if n <= max { DecimalReads(n, max); } else { DecimalTooLarge(n, max); }
  }

  lemma {:induction false} AsciiIsValid(s: seq<byte>)
    requires forall b :: b in s ==> b < 0x80
    ensures ValidUtf8(s)
  {
    if s == [] {
    } else {
      assert s[0] in s && forall b :: b in s[1..] ==> b in s;
      AsciiIsValid(s[1..]);
    }
  }

  lemma {:induction false} WordRead(f: seq<byte>, rest: seq<byte>, word: seq<byte>)
    requires forall b :: b in f ==> !IsBlank(b)
    ensures Words(f + rest, word) == Words(rest, word + f)
  {
    if f == [] {
      assert f + rest == rest && word + f == word;
    } else {
      assert (f + rest)[1..] == f[1..] + rest;
      WordRead(f[1..], rest, word + [f[0]]);
      assert word + [f[0]] + f[1..] == word + f;
    }
  }

  lemma {:induction false} FieldsRead(fields: seq<seq<byte>>)
    requires forall f :: f in fields ==> Field(f)
    ensures Words(Joined(fields) + [NEWLINE], []) == fields
  {
    if fields == [] {
      assert Joined(fields) + [NEWLINE] == [NEWLINE];
      assert Words([], []) == [];
    } else {
      var f := fields[0];
      assert Field(f);
      if |fields| == 1 {
        WordRead(f, [NEWLINE], []);
        assert [] + f == f && [NEWLINE][1..] == [];
        assert Words([], []) == [];
      } else {
        var rest := Joined(fields[1..]) + [NEWLINE];
        assert Joined(fields) + [NEWLINE] == f + ([SPACE] + rest);
        WordRead(f, [SPACE] + rest, []);
        assert [] + f == f && ([SPACE] + rest)[1..] == rest;
        FieldsRead(fields[1..]);
      }
    }
  }

  lemma {:induction false} JoinedBytes(fields: seq<seq<byte>>)
    requires forall f :: f in fields ==> Field(f)
    ensures forall b :: b in Joined(fields) ==> b < 0x80 && b != CLOSE
  {
    if fields == [] {
    } else {
      assert Field(fields[0]);
      JoinedBytes(fields[1..]);
    }
  }

  lemma OpenIsFound(pid: nat, name: seq<byte>, fields: seq<seq<byte>>)
    ensures FirstPair(Printed(pid, name, fields), SPACE, OPEN) == Some(|Decimal(pid)|)
  {
    var s, d := Printed(pid, name, fields), Decimal(pid);
    assert PairAt(s, SPACE, OPEN, |d|);
    forall i: nat | i < |d| ensures !PairAt(s, SPACE, OPEN, i) {
      assert s[i] == d[i] && Digit(d[i]);
    }
  }

  lemma CloseIsFound(pid: nat, name: seq<byte>, fields: seq<seq<byte>>)
    requires forall f :: f in fields ==> Field(f)
    ensures LastPair(Printed(pid, name, fields), CLOSE, SPACE) == Some(|Decimal(pid)| + 2 + |name|)
  {
    var s, at := Printed(pid, name, fields), |Decimal(pid)| + 2 + |name|;
    var tail := Joined(fields) + [NEWLINE];
    JoinedBytes(fields);
    assert PairAt(s, CLOSE, SPACE, at);
    assert s[at + 2..] == tail;
    forall i: nat | i > at ensures !PairAt(s, CLOSE, SPACE, i) {
      if at + 2 <= i < |s| { assert s[i] == tail[i - at - 2] && tail[i - at - 2] in tail; }
    }
  }

  /** For every name, of any bytes at all, the record yields exactly what was printed around
      it, and is refused exactly when a number or the boot identifier is out of range. */
  lemma RecordRoundTrip(asked: nat, pid: nat, name: seq<byte>, fields: seq<seq<byte>>,
                        group: nat, start: nat, boot: string)
    requires (forall f :: f in fields ==> Field(f)) && |fields| >= 20
    requires fields[2] == Decimal(group) && fields[19] == Decimal(start)
    ensures ParseFacts(asked, Printed(pid, name, fields), boot) ==
            if asked == pid && 1 < pid <= I32_MAX && 0 < group <= I32_MAX && start <= U64_MAX && BootId(Trim(boot))
            then Some(Facts(Trim(boot), pid, start, group)) else None
  {
    var s, d := Printed(pid, name, fields), Decimal(pid);
    OpenIsFound(pid, name, fields);
    assert s[..|d|] == d;
    AsciiIsValid(d);
    ParseDecimal(pid, U32_MAX);
    CloseIsFound(pid, name, fields);
    var tail := Joined(fields) + [NEWLINE];
    assert s[|d| + 2 + |name| + 2..] == tail;
    JoinedBytes(fields);
    AsciiIsValid(tail);
    FieldsRead(fields);
    ParseDecimal(group, U32_MAX);
    ParseDecimal(start, U64_MAX);
  }

  lemma {:induction false} TrimEndStops(id: string, after: string)
    requires id != [] && !IsSpace(id[|id| - 1]) && forall c :: c in after ==> IsSpace(c)
    ensures TrimEnd(id + after) == id
    decreases |after|
  {
    var s := id + after;
    if after == [] {
      assert s == id;
    } else {
      assert s[..|s| - 1] == id + after[..|after| - 1] && s[|s| - 1] == after[|after| - 1];
      TrimEndStops(id, after[..|after| - 1]);
    }
  }

  /** Only the white space around the identifier is dropped. */
  lemma {:induction false} TrimStops(before: string, id: string, after: string)
    requires id != [] && !IsSpace(id[0]) && !IsSpace(id[|id| - 1])
    requires (forall c :: c in before ==> IsSpace(c)) && forall c :: c in after ==> IsSpace(c)
    ensures Trim(before + id + after) == id
    decreases |before|
  {
    var s := before + id + after;
    if before == [] {
      assert s == id + after && s[0] == id[0];
      TrimEndStops(id, after);
    } else {
      assert s[1..] == before[1..] + id + after && s[0] == before[0];
      TrimStops(before[1..], id, after);
    }
  }

  /**
   The identity of a running process. For a record as the kernel prints it, of any name, and a boot
   identifier between any white space, there is one exactly when the record is of the process asked
   for, its pid, group and start are in range, and the boot identifier is 36 characters, hexadecimal
   but for four hyphens; and it is the digest of those four facts under the scheme's name.
   */
  lemma IdentityIsGiven(digest: Facts -> string, asked: nat, pid: nat, name: seq<byte>, fields: seq<seq<byte>>,
                        group: nat, start: nat, before: string, id: string, after: string)
    requires (forall f :: f in fields ==> Field(f)) && |fields| >= 20
    requires fields[2] == Decimal(group) && fields[19] == Decimal(start)
    requires id != [] && !IsSpace(id[0]) && !IsSpace(id[|id| - 1])
    requires (forall c :: c in before ==> IsSpace(c)) && forall c :: c in after ==> IsSpace(c)
    ensures Identity(digest, asked, Printed(pid, name, fields), before + id + after) ==
            if && asked == pid && 1 < pid <= 0x7FFF_FFFF && 0 < group <= 0x7FFF_FFFF
               && start <= 0xFFFF_FFFF_FFFF_FFFF && |id| == 36
               && forall i :: 0 <= i < 36 ==>
                    if i in {8, 13, 18, 23} then id[i] == '-'
                    else '0' <= id[i] <= '9' || 'a' <= id[i] <= 'f' || 'A' <= id[i] <= 'F'
            then Some("linux-proc-v1:" + digest(Facts(id, pid, start, group))) else None
  {
    TrimStops(before, id, after);
    RecordRoundTrip(asked, pid, name, fields, group, start, before + id + after);
  }

  /** A record that yields facts at all, however it came about: digits of the pid asked for up to the
      first " (", any bytes, and after the last ") " valid text of twenty fields or more, of which the
      third is the group and the twentieth the start. */
  lemma AcceptedRecord(pid: nat, stat: seq<byte>, boot: string)
      returns (head: seq<byte>, name: seq<byte>, tail: seq<byte>)
    requires ParseFacts(pid, stat, boot).Some?
    ensures stat == head + [SPACE, OPEN] + name + [CLOSE, SPACE] + tail
    ensures forall i: nat :: !PairAt(head, SPACE, OPEN, i) && !PairAt(tail, CLOSE, SPACE, i)
    ensures ValidUtf8(head) && ParseUnsigned(head, U32_MAX) == Some(pid) && ValidUtf8(tail)
    ensures var fields, facts := Words(tail, []), ParseFacts(pid, stat, boot).value;
            && |fields| >= 20 && facts.pid == pid && 1 < pid <= 0x7FFF_FFFF
            && ParseUnsigned(fields[2], U32_MAX) == Some(facts.group) && 0 < facts.group <= 0x7FFF_FFFF
            && ParseUnsigned(fields[19], U64_MAX) == Some(facts.start)
            && facts.boot == Trim(boot) && |facts.boot| == 36
  {
    var open, end := FirstPair(stat, SPACE, OPEN).value, LastPair(stat, CLOSE, SPACE).value;
    head, name, tail := stat[..open], stat[open + 2..end], stat[end + 2..];
    assert stat == head + [SPACE, OPEN] + name + [CLOSE, SPACE] + tail;
    forall i: nat ensures !PairAt(head, SPACE, OPEN, i) && !PairAt(tail, CLOSE, SPACE, i) {
      assert PairAt(head, SPACE, OPEN, i) ==> PairAt(stat, SPACE, OPEN, i);
      assert PairAt(tail, CLOSE, SPACE, i) ==> PairAt(stat, CLOSE, SPACE, end + 2 + i);
    }
  }

  /** Renaming itself, and anything else the record says, leaves a process its identity;
      two processes share one only when boot, pid, start and group are all equal. */
  lemma IdentityIsTheProcess(digest: Facts -> string, boot1: string, boot2: string, pid1: nat, pid2: nat,
                             name1: seq<byte>, name2: seq<byte>, fields1: seq<seq<byte>>, fields2: seq<seq<byte>>,
                             group1: nat, group2: nat, start1: nat, start2: nat)
    requires forall a, b :: digest(a) == digest(b) ==> a == b
    requires (forall f :: f in fields1 ==> Field(f)) && |fields1| >= 20
    requires (forall f :: f in fields2 ==> Field(f)) && |fields2| >= 20
    requires fields1[2] == Decimal(group1) && fields1[19] == Decimal(start1)
    requires fields2[2] == Decimal(group2) && fields2[19] == Decimal(start2)
    ensures var a, b := Identity(digest, pid1, Printed(pid1, name1, fields1), boot1),
                        Identity(digest, pid2, Printed(pid2, name2, fields2), boot2);
            a.Some? && b.Some? ==>
              (a == b <==> Trim(boot1) == Trim(boot2) && pid1 == pid2 && start1 == start2 && group1 == group2)
  {
    RecordRoundTrip(pid1, pid1, name1, fields1, group1, start1, boot1);
    RecordRoundTrip(pid2, pid2, name2, fields2, group2, start2, boot2);
    var a, b := ParseFacts(pid1, Printed(pid1, name1, fields1), boot1),
                ParseFacts(pid2, Printed(pid2, name2, fields2), boot2);
    if a.Some? && b.Some? {
      assert ("linux-proc-v1:" + digest(a.value))[14..] == digest(a.value);
      assert ("linux-proc-v1:" + digest(b.value))[14..] == digest(b.value);
    }
  }
}
