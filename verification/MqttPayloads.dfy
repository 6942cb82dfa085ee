/** Bounds on decoded MQTT payloads: a recursive depth and a stack of values still to
    be looked at. */
module MqttPayloads {
  const MAX_JSON_DEPTH := 8
  const MAX_STRING_BYTES := 1024

  /** A decoded string may hold any code point, lone surrogates included. */
  newtype CodePoint = c: int | 0 <= c <= 0x10FFFF

  type Text = seq<CodePoint>

  datatype Json =
    | Scalar(tag: nat)
    | String(text: Text)
    | List(items: seq<Json>)
    | Object(members: seq<Member>)

  datatype Member = Member(key: Text, value: Json)

  // ----- UTF-8 -----

  predicate Surrogate(c: CodePoint) {
    0xD800 <= c <= 0xDFFF
  }

  predicate Encodable(s: Text) {
    forall i :: 0 <= i < |s| ==> !Surrogate(s[i])
  }

  function Bytes(c: CodePoint): nat {
    if c < 0x80 then 1 else if c < 0x800 then 2 else if c < 0x10000 then 3 else 4
  }

  function EncodedLength(s: Text): nat {
    if s == [] then 0 else Bytes(s[0]) + EncodedLength(s[1..])
  }

  /** Encodes at all, and to no more than the allowed bytes. */
  predicate Fits(s: Text) {
    Encodable(s) && EncodedLength(s) <= MAX_STRING_BYTES
  }

  /** The bytes of one code point (RFC 3629, section 3). */
  function Utf8(point: CodePoint): seq<int> {
    var c := point as int;
    if c < 0x80 then [c]
    else if c < 0x800 then [0xC0 + c / 64, 0x80 + c % 64]
    else if c < 0x10000 then [0xE0 + c / 4096, 0x80 + c / 64 % 64, 0x80 + c % 64]
    else [0xF0 + c / 262144, 0x80 + c / 4096 % 64, 0x80 + c / 64 % 64, 0x80 + c % 64]
  }

  function Utf8Text(s: Text): seq<int> {
    if s == [] then [] else Utf8(s[0]) + Utf8Text(s[1..])
  }

  /** The number that such bytes stand for: the payload bits of the lead byte, then six
      bits of each continuation byte. */
  function PointOf(bytes: seq<int>): int
    requires 1 <= |bytes| <= 4
  {
    if |bytes| == 1 then bytes[0]
    else if |bytes| == 2 then (bytes[0] - 0xC0) * 64 + (bytes[1] - 0x80)
    else if |bytes| == 3 then ((bytes[0] - 0xE0) * 64 + (bytes[1] - 0x80)) * 64 + (bytes[2] - 0x80)
    else (((bytes[0] - 0xF0) * 64 + (bytes[1] - 0x80)) * 64 + (bytes[2] - 0x80)) * 64 + (bytes[3] - 0x80)
  }

  /** The counted length of a code point is that of its bytes, which are lead and
      continuation bytes of the right ranges and stand for it again. */
  lemma BytesAreUtf8(c: CodePoint)
    ensures Bytes(c) == |Utf8(c)| && 1 <= |Utf8(c)| <= 4 && PointOf(Utf8(c)) == c as int
    ensures forall i :: 0 < i < |Utf8(c)| ==> 0x80 <= Utf8(c)[i] < 0xC0
    ensures |Utf8(c)| == 1 <==> 0 <= Utf8(c)[0] < 0x80
    ensures |Utf8(c)| == 2 <==> 0xC2 <= Utf8(c)[0] < 0xE0
    ensures |Utf8(c)| == 3 <==> 0xE0 <= Utf8(c)[0] < 0xF0
    ensures |Utf8(c)| == 4 <==> 0xF0 <= Utf8(c)[0] < 0xF5
  {
    var n := c as int;
    SixBits(n);
    SixBits(n / 64);
    SixBits(n / 64 / 64);
    assert n / 4096 == n / 64 / 64 && n / 262144 == n / 64 / 64 / 64;
    hide PointOf;
    if n < 0x80 {
      PointOfOne(n);
    } else if n < 0x800 {
      PointOfTwo(n / 64, n % 64);
    } else if n < 0x10000 {
      PointOfThree(n / 4096, n / 64 % 64, n % 64);
    } else {
      PointOfFour(n / 262144, n / 4096 % 64, n / 64 % 64, n % 64);
    }
  }

  lemma SixBits(n: int)
    requires 0 <= n
    ensures n == n / 64 * 64 + n % 64 && 0 <= n % 64 < 64
  {
  }

  lemma PointOfOne(a: int)
    ensures PointOf([a]) == a
  {
  }

  lemma PointOfTwo(a: int, b: int)
    ensures PointOf([0xC0 + a, 0x80 + b]) == a * 64 + b
  {
  }

  lemma PointOfThree(a: int, b: int, c: int)
    ensures PointOf([0xE0 + a, 0x80 + b, 0x80 + c]) == (a * 64 + b) * 64 + c
  {
  }

  lemma PointOfFour(a: int, b: int, c: int, d: int)
    ensures PointOf([0xF0 + a, 0x80 + b, 0x80 + c, 0x80 + d]) == ((a * 64 + b) * 64 + c) * 64 + d
  {
  }

  lemma {:induction false} LengthIsUtf8(s: Text)
    ensures EncodedLength(s) == |Utf8Text(s)|
  {
    if s != [] {
      BytesAreUtf8(s[0]);
      LengthIsUtf8(s[1..]);
    }
  }

  /** A string fits if and only if it has no surrogate and at most 1024 bytes of UTF-8. */
  lemma FitsExactlyWhen(s: Text)
    ensures Fits(s) <==> (forall c :: c in s ==> !(0xD800 <= c <= 0xDFFF)) && |Utf8Text(s)| <= 1024
  {
    LengthIsUtf8(s);
    assert forall i :: 0 <= i < |s| ==> s[i] in s;
  }

  // ----- depth -----

  function ValuesOf(j: Json): seq<Json> {
    match j
    case List(items) => items
    case Object(members) => seq(|members|, i requires 0 <= i < |members| => members[i].value)
    case _ => []
  }

  function KeysOf(j: Json): seq<Json> {
    if j.Object? then seq(|j.members|, i requires 0 <= i < |j.members| => String(j.members[i].key)) else []
  }

  function Max(x: nat, y: nat): nat {
    if x >= y then x else y
  }

  function Depth(j: Json, current: nat): nat {
    match j
    case List(items) => if items == [] then current else DeepestItem(items, current + 1)
    case Object(members) => if members == [] then current else DeepestMember(members, current + 1)
    case _ => current
  }

  function DeepestItem(items: seq<Json>, current: nat): nat
    requires items != []
  {
    if |items| == 1 then Depth(items[0], current) else Max(Depth(items[0], current), DeepestItem(items[1..], current))
  }

  function DeepestMember(members: seq<Member>, current: nat): nat
    requires members != []
  {
    if |members| == 1 then Depth(members[0].value, current) else Max(Depth(members[0].value, current), DeepestMember(members[1..], current))
  }

  /** The value contains n values nested in each other, itself the outermost. */
  ghost predicate Nested(j: Json, n: nat)
    decreases n
  {
    n <= 1 || exists i :: 0 <= i < |ValuesOf(j)| && Nested(ValuesOf(j)[i], n - 1)
  }

  // ----- strings at every level -----

  /** All strings of the value fit: the string itself, all keys, everything inside. */
  predicate StringsFit(j: Json) {
    match j
    case Scalar(_) => true
    case String(text) => Fits(text)
    case List(items) => forall i :: 0 <= i < |items| ==> StringsFit(items[i])
    case Object(members) => forall i :: 0 <= i < |members| ==> Fits(members[i].key) && StringsFit(members[i].value)
  }

  /** The string occurs somewhere in the value, as a string or as a key. */
  ghost predicate Occurs(s: Text, j: Json) {
    match j
    case Scalar(_) => false
    case String(text) => s == text
    case List(items) => exists i :: 0 <= i < |items| && Occurs(s, items[i])
    case Object(members) => exists i :: 0 <= i < |members| && (s == members[i].key || Occurs(s, members[i].value))
  }

  lemma {:induction false} FitMeansEveryOccurrence(j: Json)
    ensures StringsFit(j) <==> forall s :: Occurs(s, j) ==> Fits(s)
  {
    match j {
      case Scalar(_) =>
      case String(text) => assert Occurs(text, j);
      case List(items) =>
        forall i | 0 <= i < |items|
          ensures StringsFit(items[i]) <==> forall s :: Occurs(s, items[i]) ==> Fits(s)
        {
          FitMeansEveryOccurrence(items[i]);
        }
        if forall s :: Occurs(s, j) ==> Fits(s) {
          forall i, s | 0 <= i < |items| && Occurs(s, items[i])
            ensures Fits(s)
          {
            assert Occurs(s, j);
          }
        }
      case Object(members) =>
        forall i | 0 <= i < |members|
          ensures StringsFit(members[i].value) <==> forall s :: Occurs(s, members[i].value) ==> Fits(s)
        {
          FitMeansEveryOccurrence(members[i].value);
        }
        if forall s :: Occurs(s, j) ==> Fits(s) {
          forall i | 0 <= i < |members|
            ensures Fits(members[i].key) && StringsFit(members[i].value)
          {
            assert Occurs(members[i].key, j);
            assert forall s :: Occurs(s, members[i].value) ==> Occurs(s, j);
          }
        }
    }
  }

  // ----- depth means nesting -----

  lemma {:induction false} DeepestItemIs(items: seq<Json>, current: nat)
    requires items != []
    ensures forall i :: 0 <= i < |items| ==> Depth(items[i], current) <= DeepestItem(items, current)
    ensures exists i :: 0 <= i < |items| && Depth(items[i], current) == DeepestItem(items, current)
    decreases |items|
  {
    if |items| > 1 {
      DeepestItemIs(items[1..], current);
      forall i | 0 <= i < |items|
        ensures Depth(items[i], current) <= DeepestItem(items, current)
      {
        assert i > 0 ==> items[i] == items[1..][i - 1];
      }
      if Depth(items[0], current) < DeepestItem(items[1..], current) {
        var i :| 0 <= i < |items[1..]| && Depth(items[1..][i], current) == DeepestItem(items[1..], current);
        assert items[i + 1] == items[1..][i];
        assert Depth(items[i + 1], current) == DeepestItem(items, current);
      } else {
        assert Depth(items[0], current) == DeepestItem(items, current);
      }
    } else {
      assert Depth(items[0], current) == DeepestItem(items, current);
    }
  }

  lemma {:induction false} DeepestMemberIs(members: seq<Member>, current: nat)
    requires members != []
    ensures forall i :: 0 <= i < |members| ==> Depth(members[i].value, current) <= DeepestMember(members, current)
    ensures exists i :: 0 <= i < |members| && Depth(members[i].value, current) == DeepestMember(members, current)
    decreases |members|
  {
    if |members| > 1 {
      DeepestMemberIs(members[1..], current);
      forall i | 0 <= i < |members|
        ensures Depth(members[i].value, current) <= DeepestMember(members, current)
      {
        assert i > 0 ==> members[i] == members[1..][i - 1];
      }
      if Depth(members[0].value, current) < DeepestMember(members[1..], current) {
        var i :| 0 <= i < |members[1..]| && Depth(members[1..][i].value, current) == DeepestMember(members[1..], current);
        assert members[i + 1] == members[1..][i];
        assert Depth(members[i + 1].value, current) == DeepestMember(members, current);
      } else {
        assert Depth(members[0].value, current) == DeepestMember(members, current);
      }
    } else {
      assert Depth(members[0].value, current) == DeepestMember(members, current);
    }
  }

  /** Both kinds of container at once: the depth is that of the deepest value inside. */
  lemma DepthOfContainer(j: Json, current: nat)
    ensures ValuesOf(j) == [] ==> Depth(j, current) == current
    ensures forall i :: 0 <= i < |ValuesOf(j)| ==> Depth(ValuesOf(j)[i], current + 1) <= Depth(j, current)
    ensures ValuesOf(j) != [] ==> exists i :: 0 <= i < |ValuesOf(j)| && Depth(ValuesOf(j)[i], current + 1) == Depth(j, current)
  {
    if j.List? && j.items != [] {
      DeepestItemIs(j.items, current + 1);
    } else if j.Object? && j.members != [] {
      DeepestMemberIs(j.members, current + 1);
      var i :| 0 <= i < |j.members| && Depth(j.members[i].value, current + 1) == DeepestMember(j.members, current + 1);
      assert ValuesOf(j)[i] == j.members[i].value;
    }
  }

  /** The computed depth reaches n levels below the start exactly if n + 1 values are
      nested in each other. */
  lemma {:induction false} DepthIsNesting(j: Json, current: nat, n: nat)
    requires n >= 1
    ensures Depth(j, current) >= current + n - 1 <==> Nested(j, n)
    decreases n
  {
    DepthOfContainer(j, current);
    DepthAtLeast(j, current);
    if n > 1 {
      forall i | 0 <= i < |ValuesOf(j)|
        ensures Depth(ValuesOf(j)[i], current + 1) >= current + n - 1 <==> Nested(ValuesOf(j)[i], n - 1)
      {
        DepthIsNesting(ValuesOf(j)[i], current + 1, n - 1);
      }
    }
  }

  lemma {:induction false} DepthAtLeast(j: Json, current: nat)
    ensures Depth(j, current) >= current
    decreases j
  {
    match j {
      case List(items) =>
        if items != [] {
          DeepestItemIs(items, current + 1);
          DepthAtLeast(items[0], current + 1);
        }
      case Object(members) =>
        if members != [] {
          DeepestMemberIs(members, current + 1);
          DepthAtLeast(members[0].value, current + 1);
        }
      case _ =>
    }
  }

  // ----- the worklist -----

  /** The number of values and keys, containers included. */
  function Size(j: Json): nat {
    match j
    case List(items) => 1 + SizeOfItems(items)
    case Object(members) => 1 + SizeOfMembers(members)
    case _ => 1
  }

  function SizeOfItems(items: seq<Json>): nat {
    if items == [] then 0 else Size(items[0]) + SizeOfItems(items[1..])
  }

  function SizeOfMembers(members: seq<Member>): nat {
    if members == [] then 0 else 1 + Size(members[0].value) + SizeOfMembers(members[1..])
  }

  lemma {:induction false} SizeSplits(a: seq<Json>, b: seq<Json>)
    ensures SizeOfItems(a + b) == SizeOfItems(a) + SizeOfItems(b)
    decreases |a|
  {
    if a == [] {
      assert a + b == b;
    } else {
      assert (a + b)[1..] == a[1..] + b;
      SizeSplits(a[1..], b);
    }
  }

  lemma {:induction false} MembersSize(members: seq<Member>)
    ensures SizeOfItems(KeysOf(Object(members))) + SizeOfItems(ValuesOf(Object(members))) == SizeOfMembers(members)
    decreases |members|
  {
    if members != [] {
      MembersSize(members[1..]);
      assert KeysOf(Object(members))[1..] == KeysOf(Object(members[1..]));
      assert ValuesOf(Object(members))[1..] == ValuesOf(Object(members[1..]));
    }
  }

  /** Taking a value off the stack and putting its parts on makes the stack lighter. */
  lemma PartsAreLighter(rest: seq<Json>, j: Json)
    ensures SizeOfItems(rest + KeysOf(j) + ValuesOf(j)) < SizeOfItems(rest + [j])
  {
    SizeSplits(rest + KeysOf(j), ValuesOf(j));
    SizeSplits(rest, KeysOf(j));
    SizeSplits(rest, [j]);
    assert [j][1..] == [];
    if j.Object? {
      MembersSize(j.members);
    }
  }

  predicate AllFit(stack: seq<Json>) {
    forall i :: 0 <= i < |stack| ==> StringsFit(stack[i])
  }

  lemma FitSplits(a: seq<Json>, b: seq<Json>)
    ensures AllFit(a + b) <==> AllFit(a) && AllFit(b)
  {
    assert forall i :: 0 <= i < |a| ==> (a + b)[i] == a[i];
    assert forall i :: 0 <= i < |b| ==> (a + b)[|a| + i] == b[i];
  }

  lemma PartsFit(j: Json)
    ensures StringsFit(j) <==> (j.String? ==> Fits(j.text)) && AllFit(KeysOf(j)) && AllFit(ValuesOf(j))
  {
    if j.Object? {
      forall i | 0 <= i < |j.members|
        ensures StringsFit(KeysOf(j)[i]) == Fits(j.members[i].key) && ValuesOf(j)[i] == j.members[i].value
      {
      }
    }
  }

  datatype Verdict = Accepted | TooDeep | TooLong | NotEncodable

  /** Accepts exactly the values that nest at most eight deep and whose strings, keys
      at every level included, encode to at most 1024 bytes each. */
  method ValidateJsonBounds(value: Json) returns (v: Verdict)
    ensures v.Accepted? <==> !Nested(value, 9) && forall s :: Occurs(s, value) ==> Fits(s)
    ensures v.TooDeep? <==> Nested(value, 9)
  {
    DepthIsNesting(value, 1, MAX_JSON_DEPTH + 1);
    FitMeansEveryOccurrence(value);
    if Depth(value, 1) > MAX_JSON_DEPTH {
      return TooDeep;
    }
    hide Depth, Nested, Occurs, StringsFit, Fits;
    var stack := [value];
    while stack != []
      invariant AllFit(stack) <==> StringsFit(value)
      decreases SizeOfItems(stack)
    {
      var item := stack[|stack| - 1];
      var rest := stack[..|stack| - 1];
      assert stack == rest + [item];
      FitSplits(rest, [item]);
      assert AllFit([item]) <==> StringsFit([item][0]);
      PartsFit(item);
      PartsAreLighter(rest, item);
      if item.String? && !Encodable(item.text) {
        FitMeans(item.text);
        return NotEncodable;
      }
      if item.String? && EncodedLength(item.text) > MAX_STRING_BYTES {
        FitMeans(item.text);
        return TooLong;
      }
      assert item.String? ==> Fits(item.text) by {
        if item.String? {
          FitMeans(item.text);
        }
      }
      FitSplits(rest + KeysOf(item), ValuesOf(item));
      FitSplits(rest, KeysOf(item));
      stack := rest;
      if item.Object? {
        stack := stack + KeysOf(item);
        stack := stack + ValuesOf(item);
      } else if item.List? {
        assert KeysOf(item) == [] && rest + KeysOf(item) == rest;
        stack := stack + item.items;
      } else {
        assert rest + KeysOf(item) + ValuesOf(item) == rest;
      }
    }
    return Accepted;
  }

  lemma FitMeans(s: Text)
    ensures Fits(s) <==> Encodable(s) && EncodedLength(s) <= MAX_STRING_BYTES
  {
  }
}
