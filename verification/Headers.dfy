/** Header admission: one method, one path, at most one content length, whatever order they come in. */
module Headers {
  import opened Basics

  datatype Header = Header(name: string, value: Bytes)

  datatype Parsed = Parsed(verb: Bytes, path: Bytes, length: Option<nat>)

  /** UTF-8 decoding is foreign; all that is used is whether it succeeds. */
  type Utf8 = Bytes -> bool

  const GET: Bytes := [71, 69, 84]
  const POST: Bytes := [80, 79, 83, 84]
  const PUT: Bytes := [80, 85, 84]
  const DELETE: Bytes := [68, 69, 76, 69, 84, 69]

  predicate ValidMethod(value: Bytes) {
    value == GET || value == POST || value == PUT || value == DELETE
  }

  /** Non-empty text without spaces, control bytes or DEL. */
  predicate ValidPath(utf8: Utf8, value: Bytes) {
    utf8(value) && value != [] && forall i | 0 <= i < |value| :: value[i] > 32 && value[i] != 127
  }

  predicate Digits(value: Bytes) {
    forall i | 0 <= i < |value| :: 48 <= value[i] <= 57
  }

  function Decimal(value: Bytes): nat
    requires Digits(value)
  {
    if value == [] then 0 else 10 * Decimal(value[..|value| - 1]) + (value[|value| - 1] - 48)
  }

  /** All digits, at least one, and the value fits the machine word. */
  predicate ValidLength(value: Bytes) {
    value != [] && Digits(value) && Decimal(value) < WORD_LIMIT
  }

  // ---------- what admission means ----------

  function Values(headers: seq<Header>, name: string): seq<Bytes> {
    if headers == [] then []
    else (if headers[0].name == name then [headers[0].value] else []) + Values(headers[1..], name)
  }

  const METHOD := ":method"
  const PATH := ":path"
  const LENGTH := "content-length"

  /** Exactly one valid method, exactly one valid path, and no or one valid content length. */
  predicate Admissible(utf8: Utf8, headers: seq<Header>) {
    var (methods, paths, lengths) := (Values(headers, METHOD), Values(headers, PATH), Values(headers, LENGTH));
    && |methods| == 1 && ValidMethod(methods[0])
    && |paths| == 1 && ValidPath(utf8, paths[0])
    && |lengths| <= 1 && (lengths != [] ==> ValidLength(lengths[0]))
  }

  /** The answer, stated without any order of the headers. */
  function Admitted(utf8: Utf8, headers: seq<Header>): Option<Parsed> {
    if !Admissible(utf8, headers) then None
    else
      var lengths := Values(headers, LENGTH);
      var length := if lengths == [] then None else Some(Decimal(lengths[0]));
      Some(Parsed(Values(headers, METHOD)[0], Values(headers, PATH)[0], length))
  }

  // ---------- the loop ----------

  /** `parse::<usize>` on digits: one digit at a time, failing as soon as the word overflows. */
  method ParseWord(value: Bytes) returns (word: Option<nat>)
    requires Digits(value)
    ensures word == if Decimal(value) < 0x1_0000_0000_0000_0000 then Some(Decimal(value)) else None
  {
    var n: nat := 0;
    for i := 0 to |value|
      invariant n == Decimal(value[..i]) && n < WORD_LIMIT
    {
      var before := value[..i];
      assert value[..i + 1][..i] == before;
      n := 10 * n + (value[i] - 48);
      if n >= WORD_LIMIT {
        assert Decimal(value[..i + 1]) == n;
        DecimalGrows(value, i + 1);
        return None;
      }
    }
    assert value[..|value|] == value;
    word := Some(n);
  }

  lemma {:induction false} DecimalGrows(value: Bytes, i: nat)
    requires Digits(value) && i <= |value|
    ensures Decimal(value[..i]) <= Decimal(value)
    decreases |value|
  {
    if i == |value| {
      assert value[..i] == value;
    } else {
      assert value[..|value| - 1][..i] == value[..i];
      DecimalGrows(value[..|value| - 1], i);
    }
  }

  lemma {:induction false} ValuesSnoc(headers: seq<Header>, last: Header, name: string)
    ensures Values(headers + [last], name) == Values(headers, name) + (if last.name == name then [last.value] else [])
  {
    if headers == [] {
      assert [last][1..] == [];
    } else {
      assert (headers + [last])[1..] == headers[1..] + [last];
      ValuesSnoc(headers[1..], last, name);
    }
  }

  lemma {:induction false} ValuesPrefix(headers: seq<Header>, i: nat, name: string)
    requires i <= |headers|
    ensures Values(headers[..i], name) <= Values(headers, name)
    decreases |headers| - i
  {
    if i == |headers| {
      assert headers[..i] == headers;
    } else {
      ValuesPrefix(headers, i + 1, name);
      assert headers[..i + 1] == headers[..i] + [headers[i]];
      ValuesSnoc(headers[..i], headers[i], name);
    }
  }

  /** A value of one of the three kinds that cannot be admitted. */
  predicate Refused(utf8: Utf8, name: string, value: Bytes) {
    || (name == METHOD && !ValidMethod(value))
    || (name == PATH && !ValidPath(utf8, value))
    || (name == LENGTH && !ValidLength(value))
  }

  /** A second value, or an invalid one, anywhere in the list makes the whole list inadmissible. */
  lemma OneBadHeaderRefusesAll(utf8: Utf8, headers: seq<Header>, i: nat)
    requires i < |headers| && headers[i].name in {METHOD, PATH, LENGTH}
    requires Refused(utf8, headers[i].name, headers[i].value) || Values(headers[..i], headers[i].name) != []
    ensures Admitted(utf8, headers) == None
  {
    var name := headers[i].name;
    assert headers[..i + 1] == headers[..i] + [headers[i]];
    ValuesSnoc(headers[..i], headers[i], name);
    ValuesPrefix(headers, i + 1, name);
    var (front, all) := (Values(headers[..i], name), Values(headers, name));
    assert front + [headers[i].value] <= all;
    assert all[|front|] == headers[i].value;
  }

  /** What the loop has learned from the headers it has seen: at most one valid value of each kind. */
  predicate Scanned(
    utf8: Utf8, seen: seq<Header>, verb: Option<Bytes>, path: Option<Bytes>, length: Option<nat>)
  {
    && Values(seen, METHOD) == (if verb.Some? then [verb.value] else [])
    && (verb.Some? ==> ValidMethod(verb.value))
    && Values(seen, PATH) == (if path.Some? then [path.value] else [])
    && (path.Some? ==> ValidPath(utf8, path.value))
    && |Values(seen, LENGTH)| == (if length.Some? then 1 else 0)
    && (length.Some? ==> ValidLength(Values(seen, LENGTH)[0]) && length.value == Decimal(Values(seen, LENGTH)[0]))
  }

  /** One more header files its value under its own name. */
  lemma SeenOneMore(headers: seq<Header>, i: nat)
    requires i < |headers|
    ensures forall name | name in {METHOD, PATH, LENGTH} ::
      Values(headers[..i + 1], name)
      == Values(headers[..i], name) + if headers[i].name == name then [headers[i].value] else []
  {
    assert headers[..i + 1] == headers[..i] + [headers[i]];
    forall name | name in {METHOD, PATH, LENGTH}
      ensures Values(headers[..i + 1], name)
        == Values(headers[..i], name) + if headers[i].name == name then [headers[i].value] else []
    {
      ValuesSnoc(headers[..i], headers[i], name);
    }
  }

  method ParseRequestHeaders(utf8: Utf8, headers: seq<Header>) returns (parsed: Option<Parsed>)
    ensures parsed == Admitted(utf8, headers)
  {
    var verb: Option<Bytes> := None;
    var path: Option<Bytes> := None;
    var length: Option<nat> := None;
    for i := 0 to |headers|
      invariant Scanned(utf8, headers[..i], verb, path, length)
    {
      var header := headers[i];
      SeenOneMore(headers, i);
      if header.name == METHOD {
        if verb.Some? || !ValidMethod(header.value) {
          OneBadHeaderRefusesAll(utf8, headers, i);
          return None;
        }
        verb := Some(header.value);
      } else if header.name == PATH {
        if path.Some? || !ValidPath(utf8, header.value) {
          OneBadHeaderRefusesAll(utf8, headers, i);
          return None;
        }
        path := Some(header.value);
      } else if header.name == LENGTH {
        if length.Some? || header.value == [] || !Digits(header.value) {
          OneBadHeaderRefusesAll(utf8, headers, i);
          return None;
        }
        var word := ParseWord(header.value);
        if word.None? {
          OneBadHeaderRefusesAll(utf8, headers, i);
          return None;
        }
        length := word;
      }
    }
    assert headers[..|headers|] == headers;
    if verb.None? || path.None? {
      return None;
    }
    parsed := Some(Parsed(verb.value, path.value, length));
  }

  // ---------- order does not matter ----------

  lemma {:induction false} ValuesMultiset(headers: seq<Header>, name: string)
    ensures forall v :: multiset(Values(headers, name))[v] == multiset(headers)[Header(name, v)]
  {
    if headers == [] {
    } else {
      ValuesMultiset(headers[1..], name);
      assert headers == [headers[0]] + headers[1..];
      assert multiset(headers) == multiset{headers[0]} + multiset(headers[1..]);
    }
  }

  /** Lists of at most one value are equal when their elements are. */
  lemma SingletonsAgree(a: seq<Bytes>, b: seq<Bytes>)
    requires multiset(a) == multiset(b)
    ensures |a| == |b| && (|a| == 1 ==> a == b)
  {
    assert |multiset(a)| == |a| && |multiset(b)| == |b|;
    if |a| == 1 {
      assert a[0] in multiset(b);
    }
  }

  /** Any permutation of the headers is admitted or refused alike, with the same result. */
  lemma OrderDoesNotMatter(utf8: Utf8, headers: seq<Header>, permuted: seq<Header>)
    requires multiset(headers) == multiset(permuted)
    ensures Admitted(utf8, headers) == Admitted(utf8, permuted)
  {
    SameValues(headers, permuted, METHOD);
    SameValues(headers, permuted, PATH);
    SameValues(headers, permuted, LENGTH);
  }

  lemma SameValues(headers: seq<Header>, permuted: seq<Header>, name: string)
    requires multiset(headers) == multiset(permuted)
    ensures var (a, b) := (Values(headers, name), Values(permuted, name)); |a| == |b| && (|a| == 1 ==> a == b)
  {
    ValuesMultiset(headers, name);
    ValuesMultiset(permuted, name);
    assert multiset(Values(headers, name)) == multiset(Values(permuted, name));
    SingletonsAgree(Values(headers, name), Values(permuted, name));
  }

  /** Headers of other names never change the answer. */
  lemma OtherHeadersDoNotMatter(utf8: Utf8, first: seq<Header>, other: Header, second: seq<Header>)
    requires other.name !in {METHOD, PATH, LENGTH}
    ensures Admitted(utf8, first + [other] + second) == Admitted(utf8, first + second)
  {
    forall name | name in {METHOD, PATH, LENGTH}
      ensures Values(first + [other] + second, name) == Values(first + second, name)
    {
      ValuesConcat(first, second, name);
      ValuesConcat(first + [other], second, name);
      ValuesSnoc(first, other, name);
    }
  }

  lemma {:induction false} ValuesConcat(a: seq<Header>, b: seq<Header>, name: string)
    ensures Values(a + b, name) == Values(a, name) + Values(b, name)
  {
    if a == [] {
      assert a + b == b;
    } else {
      assert (a + b)[1..] == a[1..] + b;
      ValuesConcat(a[1..], b, name);
    }
  }

  // ---------- what the digits and the words are ----------

  function Power(base: nat, n: nat): nat {
    if n == 0 then 1 else base * Power(base, n - 1)
  }

  function Digit(b: byte): nat
    requires 48 <= b <= 57
  {
    b - 48
  }

  /** The first digit counts as often as ten to the power of the digits behind it. */
  lemma {:induction false} DecimalPlace(value: Bytes)
    requires Digits(value) && value != []
    ensures Decimal(value) == Digit(value[0]) * Power(10, |value| - 1) + Decimal(value[1..])
    decreases |value|
  {
    var (front, last) := (value[..|value| - 1], value[|value| - 1]);
    if |value| == 1 {
      assert front == [] && value[1..] == [];
    } else {
      DecimalPlace(front);
      assert front[1..] == value[1..][..|value| - 2];
      assert value[1..][|value| - 2] == last;
      assert Decimal(value[1..]) == 10 * Decimal(front[1..]) + (last - 48);
      TimesTen(Digit(value[0]), Power(10, |value| - 2));
    }
  }

  lemma TimesTen(a: nat, b: nat)
    ensures 10 * (a * b) == a * (10 * b)
  {
  }

  lemma DecimalExample()
    ensures Decimal([49, 53, 48]) == 150
  {
    assert [49, 53, 48][..2] == [49, 53] && [49, 53][..1] == [49] && [49][..0] == [];
    assert Decimal([49]) == 1 && Decimal([49, 53]) == 15;
  }

  function Ascii(text: string): seq<int> {
    seq(|text|, i requires 0 <= i < |text| => text[i] as int)
  }

  /** The methods, letter by letter. */
  lemma MethodsExactly(value: Bytes)
    ensures ValidMethod(value) <==> value in {Ascii("GET"), Ascii("POST"), Ascii("PUT"), Ascii("DELETE")}
  {
    assert GET == Ascii("GET") && POST == Ascii("POST") && PUT == Ascii("PUT") && DELETE == Ascii("DELETE");
  }

  /** The header named `name` is there once, and it is `headers[i]`. */
  predicate Only(headers: seq<Header>, name: string, i: int) {
    0 <= i < |headers| && headers[i].name == name && forall j | 0 <= j < |headers| && j != i :: headers[j].name != name
  }

  lemma {:induction false} NoValues(headers: seq<Header>, name: string)
    ensures Values(headers, name) == [] <==> forall i | 0 <= i < |headers| :: headers[i].name != name
    decreases |headers|
  {
    if headers == [] {
    } else {
      NoValues(headers[1..], name);
      assert forall i | 0 < i < |headers| :: headers[i] == headers[1..][i - 1];
      assert forall i | 0 <= i < |headers[1..]| :: headers[1..][i] == headers[i + 1];
    }
  }

  lemma {:induction false} OneValue(headers: seq<Header>, name: string)
    ensures |Values(headers, name)| == 1 <==> exists i :: Only(headers, name, i)
    ensures forall i :: Only(headers, name, i) ==> Values(headers, name) == [headers[i].value]
    decreases |headers|
  {
    if headers == [] {
    } else {
      var rest := headers[1..];
      OneValue(rest, name);
      NoValues(rest, name);
      assert forall i | 0 < i < |headers| :: headers[i] == rest[i - 1];
      if headers[0].name == name {
        if Values(rest, name) == [] {
          assert forall i | 0 <= i < |rest| :: rest[i] == headers[i + 1];
          assert Only(headers, name, 0);
        }
      } else if |Values(headers, name)| == 1 {
        var i :| Only(rest, name, i);
        assert Only(headers, name, i + 1);
      }
      forall i | Only(headers, name, i)
        ensures Values(headers, name) == [headers[i].value]
      {
        if i == 0 {
          assert forall j | 0 <= j < |rest| :: rest[j] == headers[j + 1];
        } else {
          assert forall j | 0 <= j < |rest| :: rest[j] == headers[j + 1];
          assert Only(rest, name, i - 1);
        }
      }
    }
  }

  /** A path of the request line: decodable, not empty, no byte up to the space, no DEL. */
  predicate Visible(value: Bytes) {
    value != [] && forall i | 0 <= i < |value| :: value[i] > 32 && value[i] != 127
  }

  /**
   * Admission in the list's own terms: one header named ":method" with one of the four methods, one named ":path"
   * with a visible path, and at most one named "content-length", all digits, of a 64-bit value.
   */
  lemma AdmittedExactly(utf8: Utf8, headers: seq<Header>)
    ensures Admitted(utf8, headers).Some? <==>
              && (exists i :: Only(headers, ":method", i)
                    && headers[i].value in {Ascii("GET"), Ascii("POST"), Ascii("PUT"), Ascii("DELETE")})
              && (exists i :: Only(headers, ":path", i) && utf8(headers[i].value) && Visible(headers[i].value))
              && (|| (forall i | 0 <= i < |headers| :: headers[i].name != "content-length")
                  || (exists i :: Only(headers, "content-length", i)
                        && headers[i].value != [] && Digits(headers[i].value)
                        && Decimal(headers[i].value) < 0x1_0000_0000_0000_0000))
  {
    OneValue(headers, METHOD);
    OneValue(headers, PATH);
    OneValue(headers, LENGTH);
    NoValues(headers, LENGTH);
    if |Values(headers, METHOD)| == 1 {
      MethodsExactly(Values(headers, METHOD)[0]);
    }
  }

  /** What is admitted are the values of those headers. */
  lemma AdmittedValues(utf8: Utf8, headers: seq<Header>, m: int, p: int)
    requires Admitted(utf8, headers).Some? && Only(headers, ":method", m) && Only(headers, ":path", p)
    ensures var parsed := Admitted(utf8, headers).value;
      && parsed.verb == headers[m].value && parsed.path == headers[p].value
      && (parsed.length.None? <==> forall i | 0 <= i < |headers| :: headers[i].name != "content-length")
      && (forall i :: Only(headers, "content-length", i) && Digits(headers[i].value) ==>
            parsed.length == Some(Decimal(headers[i].value)))
  {
    OneValue(headers, METHOD);
    OneValue(headers, PATH);
    OneValue(headers, LENGTH);
    NoValues(headers, LENGTH);
  }
}
