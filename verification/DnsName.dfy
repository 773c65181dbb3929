/**
  Generated object names (`ToDNSName`, `Base64`). A Go string is a sequence of bytes, so a
  `char` stands for one byte here. A slice out of range, which panics, gives `None`.
 */
module DnsName {
  import opened Wrappers

  const LIMIT := 63
  const TAG_LENGTH := 6

  // ----- Base64, section 4 of RFC 4648 -----

  function Byte(c: char): (b: int)
    ensures 0 <= b < 256
  {
    c as int % 256
  }

  function Sextet(v: int): char
    requires 0 <= v < 64
  {
    if v < 26 then ('A' as int + v) as char
    else if v < 52 then ('a' as int + v - 26) as char
    else if v < 62 then ('0' as int + v - 52) as char
    else if v == 62 then '+' else '/'
  }

  function Quantum(a: int, b: int, c: int): string
    requires 0 <= a < 256 && 0 <= b < 256 && 0 <= c < 256
  {
    [Sextet(a / 4), Sextet(a % 4 * 16 + b / 16), Sextet(b % 16 * 4 + c / 64), Sextet(c % 64)]
  }

  function EncodeToString(src: string): (r: string)
    ensures |r| == (|src| + 2) / 3 * 4
  {
    if src == "" then ""
    else if |src| == 1 then Quantum(Byte(src[0]), 0, 0)[..2] + "=="
    else if |src| == 2 then Quantum(Byte(src[0]), Byte(src[1]), 0)[..3] + "="
    else Quantum(Byte(src[0]), Byte(src[1]), Byte(src[2])) + EncodeToString(src[3..])
  }

  // ----- Decoding, for reference -----

  /** The alphabet of table 1 of RFC 4648, read backwards. */
  function Value(c: char): int {
    if 'A' <= c <= 'Z' then c as int - 65
    else if 'a' <= c <= 'z' then c as int - 71
    else if '0' <= c <= '9' then c as int + 4
    else if c == '+' then 62
    else if c == '/' then 63
    else -1
  }

  /** Four characters are 24 bits, most significant first. */
  function Bits(a: char, b: char, c: char, d: char): int {
    Value(a) * 262144 + Value(b) * 4096 + Value(c) * 64 + Value(d)
  }

  /** The three bytes of 24 bits. */
  function Bytes(n: int): (r: seq<int>)
    ensures |r| == 3
  {
    [n / 65536, n / 256 % 256, n % 256]
  }

  function Decode(s: string): seq<int>
    requires |s| % 4 == 0
  {
    if s == "" then []
    else if s[2] == '=' then Bytes(Bits(s[0], s[1], 'A', 'A'))[..1]
    else if s[3] == '=' then Bytes(Bits(s[0], s[1], s[2], 'A'))[..2]
    else Bytes(Bits(s[0], s[1], s[2], s[3])) + Decode(s[4..])
  }

  lemma SextetValue(v: int)
    requires 0 <= v < 64
    ensures Value(Sextet(v)) == v && Sextet(v) != '='
  {
  }

  lemma QuantumBits(a: int, b: int, c: int)
    requires 0 <= a < 256 && 0 <= b < 256 && 0 <= c < 256
    ensures var q := Quantum(a, b, c);
            && |q| == 4 && Bits(q[0], q[1], q[2], q[3]) == a * 65536 + b * 256 + c
            && q[2] != '=' && q[3] != '='
            && (b == 0 && c == 0 ==> q[2] == q[3] == 'A') && (c == 0 ==> q[3] == 'A')
  {
    hide Sextet, Value;
    SextetValue(a / 4);
    SextetValue(a % 4 * 16 + b / 16);
    SextetValue(b % 16 * 4 + c / 64);
    SextetValue(c % 64);
    assert Sextet(0) == 'A' by {
      ZeroIsA();
    }
  }

  lemma ZeroIsA()
    ensures Sextet(0) == 'A'
  {
  }

  lemma SplitBytes(a: int, b: int, c: int)
    requires 0 <= a < 256 && 0 <= b < 256 && 0 <= c < 256
    ensures Bytes(a * 65536 + b * 256 + c) == [a, b, c]
  {
    var n := a * 65536 + b * 256 + c;
    assert n / 256 == a * 256 + b;
  }

  lemma DecodeStep(q: string, rest: string)
    requires |q| == 4 && |rest| % 4 == 0 && q[2] != '=' && q[3] != '='
    ensures (4 + |rest|) % 4 == 0 && Decode(q + rest) == Bytes(Bits(q[0], q[1], q[2], q[3])) + Decode(rest)
  {
    hide Bytes, Bits;
    assert (q + rest)[4..] == rest;
  }

  lemma DecodeQuantum(a: int, b: int, c: int, rest: string)
    requires 0 <= a < 256 && 0 <= b < 256 && 0 <= c < 256 && |rest| % 4 == 0
    ensures |Quantum(a, b, c)| == 4 && Decode(Quantum(a, b, c) + rest) == [a, b, c] + Decode(rest)
  {
    hide Quantum, Bits, Bytes, Decode;
    QuantumBits(a, b, c);
    SplitBytes(a, b, c);
    DecodeStep(Quantum(a, b, c), rest);
  }

  lemma DecodePadded(a: int, b: int)
    requires 0 <= a < 256 && 0 <= b < 256
    ensures |Quantum(a, 0, 0)| == |Quantum(a, b, 0)| == 4
    ensures Decode(Quantum(a, 0, 0)[..2] + "==") == [a]
    ensures Decode(Quantum(a, b, 0)[..3] + "=") == [a, b]
  {
    hide Quantum, Bits, Bytes;
    QuantumBits(a, 0, 0);
    QuantumBits(a, b, 0);
    SplitBytes(a, 0, 0);
    SplitBytes(a, b, 0);
    var s, t := Quantum(a, 0, 0)[..2] + "==", Quantum(a, b, 0)[..3] + "=";
    assert Bits(s[0], s[1], 'A', 'A') == a * 65536 + 0 * 256 + 0;
    assert Bits(t[0], t[1], t[2], 'A') == a * 65536 + b * 256 + 0;
  }

  /** The bytes come back, padding and all: nothing is lost, swapped or misspelt. */
  lemma {:induction false} DecodeEncode(src: string)
    ensures Decode(EncodeToString(src)) == seq(|src|, i requires 0 <= i < |src| => Byte(src[i]))
  {
    hide Quantum, Byte, Decode;
    var bytes := seq(|src|, i requires 0 <= i < |src| => Byte(src[i]));
    if src == "" {
      NothingDecodes();
    } else if |src| == 1 {
      DecodePadded(Byte(src[0]), 0);
      assert bytes == [Byte(src[0])];
    } else if |src| == 2 {
      DecodePadded(Byte(src[0]), Byte(src[1]));
      assert bytes == [Byte(src[0]), Byte(src[1])];
    } else {
      DecodeQuantum(Byte(src[0]), Byte(src[1]), Byte(src[2]), EncodeToString(src[3..]));
      DecodeEncode(src[3..]);
      var rest := seq(|src[3..]|, i requires 0 <= i < |src[3..]| => Byte(src[3..][i]));
      assert bytes == [Byte(src[0]), Byte(src[1]), Byte(src[2])] + rest;
    }
  }

  lemma NothingDecodes()
    ensures Decode("") == []
  {
  }

  /** A negative length returns the whole encoding; otherwise it is a slice bound. */
  function Base64(src: string, length: int): (r: Option<string>)
    ensures length < 0 ==> r == Some(EncodeToString(src))
    ensures r.None? <==> length > (|src| + 2) / 3 * 4
    ensures r.Some? && length >= 0 ==> |r.value| == length && r.value <= EncodeToString(src)
  {
    var encoded := EncodeToString(src);
    if length < 0 then Some(encoded)
    else if length <= |encoded| then Some(encoded[..length])
    else None
  }

  // ----- Names -----

  function Lower(c: char): char {
    if 'A' <= c <= 'Z' then (c as int + 32) as char else c
  }

  function ToLower(s: string): (r: string)
    ensures |r| == |s| && forall i :: 0 <= i < |s| ==> r[i] == Lower(s[i])
  {
    seq(|s|, i requires 0 <= i < |s| => Lower(s[i]))
  }

  function Dashed(suffix: string): string {
    if suffix != "" then "-" + suffix else suffix
  }

  function Uncut(prefix: string, name: string, suffix: string): string {
    prefix + "-" + name + Dashed(suffix)
  }

  /** How many bytes of the name survive when the plain form is too long. */
  function Kept(prefix: string, suffix: string): int {
    LIMIT - (|prefix| + 1 + |Dashed(suffix)|) - 7
  }

  predicate Fits(prefix: string, name: string, suffix: string) {
    |Uncut(prefix, name, suffix)| <= LIMIT
  }

  /**
    The length law: at most 63 bytes, exactly 63 when the name is cut, and a panic exactly
    when a name that has to be cut would keep a negative number of bytes.
   */
  function ToDNSName(prefix: string, name: string, suffix: string): (r: Option<string>)
    ensures r.None? <==> !Fits(prefix, name, suffix) && Kept(prefix, suffix) < 0
    ensures r.Some? ==> |r.value| <= LIMIT
    ensures r.Some? && !Fits(prefix, name, suffix) ==> |r.value| == LIMIT
  {
    var tail := Dashed(suffix);
    var n := Uncut(prefix, name, suffix);
    if |n| <= LIMIT then Some(n)
    else
      var i := |prefix + "-" + tail|;
      var left := LIMIT - i;
      match Base64(name, TAG_LENGTH)
      case None => None
      case Some(tag) =>
        if 0 <= left - 7 <= |name| then
          Some(ToLower(prefix + "-" + name[..left - 7] + "-" + tag + tail))
        else None
  }

  /** The lower-cased tag of a name that is cut. */
  function Tag(name: string): (t: string)
    requires |name| >= 5
    ensures |t| == TAG_LENGTH
  {
    assert |EncodeToString(name)| >= 8;
    ToLower(EncodeToString(name)[..TAG_LENGTH])
  }

  // ----- Valid labels, section 2.1 of RFC 1123 -----

  predicate Alnum(c: char) {
    'a' <= c <= 'z' || '0' <= c <= '9'
  }

  predicate LabelChar(c: char) {
    Alnum(c) || c == '-'
  }

  predicate LabelText(s: string) {
    forall i :: 0 <= i < |s| ==> LabelChar(s[i])
  }

  predicate LabelShaped(s: string) {
    s != "" && LabelText(s) && Alnum(s[0]) && Alnum(s[|s| - 1])
  }

  lemma EncodeStep(s: string)
    requires |s| >= 3
    ensures EncodeToString(s)[..4] == Quantum(Byte(s[0]), Byte(s[1]), Byte(s[2]))
    ensures EncodeToString(s)[4..] == EncodeToString(s[3..])
  {
  }

  lemma EncodeHead(s: string)
    requires |s| >= 2
    ensures EncodeToString(s)[..2] == Quantum(Byte(s[0]), Byte(s[1]), 0)[..2]
  {
    var x, y := Byte(s[0]), Byte(s[1]);
    if |s| == 2 {
      TakeTwo(Quantum(x, y, 0), 3, "=");
    } else {
      EncodeStep(s);
      TakeTwo(EncodeToString(s), 4, "");
      SameFirstTwo(x, y, Byte(s[2]));
    }
  }

  lemma TakeTwo(q: string, n: nat, padding: string)
    requires 2 <= n <= |q|
    ensures (q[..n] + padding)[..2] == q[..2] == q[..n][..2]
  {
  }

  lemma SameFirstTwo(a: int, b: int, c: int)
    requires 0 <= a < 256 && 0 <= b < 256 && 0 <= c < 256
    ensures Quantum(a, b, c)[..2] == Quantum(a, b, 0)[..2]
  {
    assert Quantum(a, b, c)[..2] == [Sextet(a / 4), Sextet(a % 4 * 16 + b / 16)];
  }

  /** The first six characters of the encoding come from the first five bytes alone. */
  lemma TagChars(name: string)
    requires |name| >= 5
    ensures EncodeToString(name)[..TAG_LENGTH] ==
            Quantum(Byte(name[0]), Byte(name[1]), Byte(name[2])) +
            Quantum(Byte(name[3]), Byte(name[4]), 0)[..2]
  {
    hide EncodeToString, Sextet;
    var e, rest := EncodeToString(name), name[3..];
    EncodeStep(name);
    EncodeHead(rest);
    assert e[..TAG_LENGTH] == e[..4] + e[4..][..2];
  }

  /** No sextet of label bytes reaches 62, so a quantum never shows '+', '/' or '='. */
  lemma QuantumIsAlnum(a: char, b: char, c: char)
    requires LabelChar(a) && LabelChar(b) && LabelChar(c)
    ensures forall i :: 0 <= i < 4 ==> Alnum(Lower(Quantum(Byte(a), Byte(b), Byte(c))[i]))
    ensures forall i :: 0 <= i < 2 ==> Alnum(Lower(Quantum(Byte(a), Byte(b), 0)[i]))
  {
    var x, y, z := Byte(a), Byte(b), Byte(c);
    SextetsBelow62(x, y, z);
    LowerSextet(x / 4);
    LowerSextet(x % 4 * 16 + y / 16);
    LowerSextet(y % 16 * 4 + z / 64);
    LowerSextet(z % 64);
  }

  lemma SextetsBelow62(x: int, y: int, z: int)
    requires 0 <= x < 128 && 0 <= y < 128 && (z == 45 || 48 <= z <= 57 || 97 <= z <= 122)
    ensures 0 <= x / 4 < 62
    ensures 0 <= x % 4 * 16 + y / 16 < 62
    ensures 0 <= y % 16 * 4 + z / 64 < 62
    ensures 0 <= z % 64 < 62
  {
  }

  lemma LowerSextet(v: int)
    requires 0 <= v < 62
    ensures Alnum(Lower(Sextet(v)))
  {
  }

  lemma TagIsAlnum(name: string)
    requires |name| >= 5 && LabelText(name)
    ensures forall i :: 0 <= i < TAG_LENGTH ==> Alnum(Tag(name)[i])
  {
    TagChars(name);
    QuantumIsAlnum(name[0], name[1], name[2]);
    QuantumIsAlnum(name[3], name[4], name[4]);
    var q, p := Quantum(Byte(name[0]), Byte(name[1]), Byte(name[2])), Quantum(Byte(name[3]), Byte(name[4]), 0);
    forall i | 0 <= i < TAG_LENGTH
      ensures Alnum(Tag(name)[i])
    {
      assert Tag(name)[i] == Lower(if i < 4 then q[i] else p[i - 4]);
    }
  }

  lemma LowerFixesLabels(s: string)
    requires LabelText(s)
    ensures ToLower(s) == s
  {
  }

  /** What a cut name looks like once the parts are label text. */
  lemma CutForm(prefix: string, name: string, suffix: string)
    requires LabelText(prefix) && LabelText(name) && LabelText(suffix)
    requires !Fits(prefix, name, suffix) && Kept(prefix, suffix) >= 0
    ensures |name| >= Kept(prefix, suffix) + 8
    ensures ToDNSName(prefix, name, suffix) ==
            Some(prefix + "-" + name[..Kept(prefix, suffix)] + "-" + Tag(name) + Dashed(suffix))
  {
    var k := Kept(prefix, suffix);
    var tag := EncodeToString(name)[..TAG_LENGTH];
    var raw := prefix + "-" + name[..k] + "-" + tag + Dashed(suffix);
    LowerFixesLabels(prefix);
    LowerFixesLabels(name[..k]);
    LowerFixesLabels(Dashed(suffix));
    var cut := prefix + "-" + name[..k] + "-" + Tag(name) + Dashed(suffix);
    assert |raw| == |cut|;
    assert ToDNSName(prefix, name, suffix) == Some(ToLower(raw));
    forall i | 0 <= i < |raw|
      ensures ToLower(raw)[i] == cut[i]
    {
      CutAt(prefix + "-" + name[..k] + "-", tag, Dashed(suffix), i);
    }
    assert ToLower(raw) == cut;
  }

  lemma CutAt(front: string, tag: string, tail: string, i: nat)
    requires ToLower(front) == front && ToLower(tail) == tail
    requires i < |front + tag + tail|
    ensures Lower((front + tag + tail)[i]) == (front + ToLower(tag) + tail)[i]
  {
    if i < |front| {
      assert ToLower(front)[i] == front[i];
    } else if i >= |front| + |tag| {
      assert ToLower(tail)[i - |front| - |tag|] == tail[i - |front| - |tag|];
    }
  }

  lemma Ends(front: string, middle: string, suffix: string)
    requires front != "" && LabelText(front) && Alnum(front[0])
    requires middle != "" && LabelText(middle) && Alnum(middle[|middle| - 1])
    requires suffix == "" || LabelShaped(suffix)
    ensures LabelShaped(front + middle + Dashed(suffix))
  {
  }

  /** Generated names are valid labels whenever the parts are label-shaped and the tag has room. */
  lemma NameIsLabel(prefix: string, name: string, suffix: string)
    requires LabelShaped(prefix) && LabelShaped(name)
    requires suffix == "" || LabelShaped(suffix)
    requires Kept(prefix, suffix) >= 0
    ensures ToDNSName(prefix, name, suffix).Some?
    ensures LabelShaped(ToDNSName(prefix, name, suffix).value)
    ensures |ToDNSName(prefix, name, suffix).value| <= LIMIT
  {
    if Fits(prefix, name, suffix) {
      TextJoins(prefix, "-");
      Ends(prefix + "-", name, suffix);
    } else {
      var kept := name[..Kept(prefix, suffix)];
      CutForm(prefix, name, suffix);
      TagIsText(name);
      TextJoins(prefix, "-");
      TextJoins(prefix + "-", kept);
      TextJoins(prefix + "-" + kept, "-");
      Ends(prefix + "-" + kept + "-", Tag(name), suffix);
    }
  }

  lemma TextJoins(a: string, b: string)
    requires LabelText(a) && LabelText(b)
    ensures LabelText(a + b)
    ensures a != "" ==> (a + b)[0] == a[0]
  {
  }

  lemma TagIsText(name: string)
    requires |name| >= 5 && LabelText(name)
    ensures LabelText(Tag(name)) && Alnum(Tag(name)[TAG_LENGTH - 1])
  {
    TagIsAlnum(name);
  }

  // ----- Collisions -----

  lemma SameTag(a: string, b: string)
    requires |a| >= 5 && |b| >= 5 && a[..5] == b[..5]
    ensures Tag(a) == Tag(b)
  {
    TagChars(a);
    TagChars(b);
    assert forall i :: 0 <= i < 5 ==> a[i] == a[..5][i] && b[i] == b[..5][i];
  }

  /** Under one front and one back, the whole is equal exactly when the middle is. */
  lemma SameMiddle(front: string, a: string, b: string, tail: string)
    ensures front + a + tail == front + b + tail <==> a == b
  {
    if front + a + tail == front + b + tail {
      assert |front + a + tail| == |front + b + tail|;
      assert a == (front + a + tail)[|front|..|front| + |a|];
      assert b == (front + b + tail)[|front|..|front| + |b|];
    }
  }

  lemma PlainForm(prefix: string, name: string, suffix: string)
    requires Fits(prefix, name, suffix)
    ensures ToDNSName(prefix, name, suffix) == Some(prefix + "-" + name + Dashed(suffix))
  {
  }

  /** What stands between prefix and suffix in the generated name of a cut name. */
  function CutMiddle(prefix: string, name: string, suffix: string): (m: string)
    requires !Fits(prefix, name, suffix) && 0 <= Kept(prefix, suffix) <= |name| - 8
    ensures |m| == Kept(prefix, suffix) + 7
  {
    name[..Kept(prefix, suffix)] + "-" + Tag(name)
  }

  lemma CutFormMiddle(prefix: string, name: string, suffix: string)
    requires LabelText(prefix) && LabelText(name) && LabelText(suffix)
    requires !Fits(prefix, name, suffix) && Kept(prefix, suffix) >= 0
    ensures |name| >= Kept(prefix, suffix) + 8
    ensures CutMiddle(prefix, name, suffix) == name[..Kept(prefix, suffix)] + "-" + Tag(name)
    ensures ToDNSName(prefix, name, suffix) ==
            Some(prefix + "-" + CutMiddle(prefix, name, suffix) + Dashed(suffix))
  {
    CutForm(prefix, name, suffix);
    var k, tail := Kept(prefix, suffix), Dashed(suffix);
    assert prefix + "-" + name[..k] + "-" + Tag(name) + tail == prefix + "-" + CutMiddle(prefix, name, suffix) + tail;
  }

  /** Two cut names have one middle exactly when kept prefix and tag agree. */
  lemma SameCut(prefix: string, a: string, b: string, suffix: string)
    requires !Fits(prefix, a, suffix) && !Fits(prefix, b, suffix)
    requires 0 <= Kept(prefix, suffix) && |a| >= Kept(prefix, suffix) + 8 && |b| >= Kept(prefix, suffix) + 8
    ensures var k := Kept(prefix, suffix);
            var same := CutMiddle(prefix, a, suffix) == CutMiddle(prefix, b, suffix);
            && (same <==> a[..k] == b[..k] && Tag(a) == Tag(b))
            && (k >= 5 ==> (same <==> a[..k] == b[..k]))
  {
    var k := Kept(prefix, suffix);
    var x, y := CutMiddle(prefix, a, suffix), CutMiddle(prefix, b, suffix);
    assert x[..k] == a[..k] && y[..k] == b[..k];
    assert x[k + 1..] == Tag(a) && y[k + 1..] == Tag(b);
    if k >= 5 && a[..k] == b[..k] {
      assert a[..5] == a[..k][..5] && b[..5] == b[..k][..5];
      SameTag(a, b);
    }
  }

  /**
    The exact collision law, for fixed label-text prefix and suffix. Two names that fit
    collide only when equal; two cut names collide exactly when kept prefix and tag agree,
    and the kept prefix decides alone once it holds the five bytes the tag is made of; a
    name that fits collides with a cut one exactly when it spells out kept prefix and tag.
   */
  lemma CollisionLaw(prefix: string, a: string, b: string, suffix: string)
    requires LabelText(prefix) && LabelText(a) && LabelText(b) && LabelText(suffix)
    requires Kept(prefix, suffix) >= 0
    ensures var k := Kept(prefix, suffix);
            var same := ToDNSName(prefix, a, suffix) == ToDNSName(prefix, b, suffix);
            && (Fits(prefix, a, suffix) && Fits(prefix, b, suffix) ==> (same <==> a == b))
            && (!Fits(prefix, a, suffix) && !Fits(prefix, b, suffix) ==>
                  && |a| >= k + 8 && |b| >= k + 8
                  && (same <==> a[..k] == b[..k] && Tag(a) == Tag(b))
                  && (k >= 5 ==> (same <==> a[..k] == b[..k])))
            && (Fits(prefix, a, suffix) && !Fits(prefix, b, suffix) ==>
                  && |b| >= k + 8
                  && (same <==> a == b[..k] + "-" + Tag(b)))
  {
    hide ToDNSName, Tag, LabelText, Fits, CutMiddle;
    var x, y := a, b;
    if Fits(prefix, a, suffix) {
      PlainForm(prefix, a, suffix);
    } else {
      CutFormMiddle(prefix, a, suffix);
      x := CutMiddle(prefix, a, suffix);
    }
    if Fits(prefix, b, suffix) {
      PlainForm(prefix, b, suffix);
    } else {
      CutFormMiddle(prefix, b, suffix);
      y := CutMiddle(prefix, b, suffix);
      if !Fits(prefix, a, suffix) {
        SameCut(prefix, a, b, suffix);
      }
    }
    SameMiddle(prefix + "-", x, y, Dashed(suffix));
  }

  /** Every name that is cut shares its generated name with a shorter, uncut, valid one. */
  lemma CutNameHasShortTwin(prefix: string, b: string, suffix: string) returns (a: string)
    requires LabelText(prefix) && LabelShaped(b) && LabelText(suffix)
    requires Kept(prefix, suffix) >= 1 && !Fits(prefix, b, suffix)
    ensures LabelShaped(a) && a != b && Fits(prefix, a, suffix)
    ensures ToDNSName(prefix, a, suffix) == ToDNSName(prefix, b, suffix)
  {
    var k := Kept(prefix, suffix);
    CutForm(prefix, b, suffix);
    TagIsAlnum(b);
    a := b[..k] + "-" + Tag(b);
    assert |a| == k + 7;
    CollisionLaw(prefix, a, b, suffix);
  }
}
