/**
 * The two naming helpers of the Go code generator (examples/goddsgen.go):
 * IDL member names become CamelCase Go names, and IDL types become Go type
 * texts. Go panics are an explicit `Panicked` outcome.
 */
module GoGen {
  import opened Options
  import opened Tokens
  import opened Ast

  /** What a helper returns: the generated text, or the panic that stops the generator. */
  datatype Outcome = Done(text: string) | Panicked(reason: string)

  /** The message of Go's runtime panic on an out-of-range index. */
  const IndexOutOfRange := "index out of range"

  /** The message of Go's runtime panic on an out-of-range slice. */
  const SliceOutOfRange := "slice bounds out of range"

  /** The panic `idlTypeToGoType` raises for a `sequence` with neither one nor two parameters. */
  const TooManyParams := "too many params"

  /** `strings.ToUpper` on one ASCII character. */
  function Upper(c: char): (r: char)
    ensures 'a' <= c <= 'z' ==> 'A' <= r <= 'Z' && r as int == c as int - 32
    ensures !('a' <= c <= 'z') ==> r == c
  {
    if 'a' <= c <= 'z' then (c as int - 32) as char else c
  }

  /** `strings.Index` for one character: the first position of `c`, or -1. */
  function IndexOf(s: string, c: char): (r: int)
    ensures -1 <= r < |s|
    ensures r == -1 <==> c !in s
    ensures r >= 0 ==> s[r] == c && c !in s[..r]
  {
    if |s| == 0 then -1
    else if s[0] == c then 0
    else
      var i := IndexOf(s[1..], c);
      if i == -1 then -1
      else
        assert s[..i + 1] == [s[0]] + s[1..][..i];
        i + 1
  }

  /**
   * The CamelCase form of a name: every underscore dropped, and the first
   * character and each character after a run of underscores upper-cased.
   * `up` says whether the next kept character is upper-cased.
   */
  function Squash(s: string, up: bool): string
  {
    if |s| == 0 then ""
    else if s[0] == '_' then Squash(s[1..], true)
    else [if up then Upper(s[0]) else s[0]] + Squash(s[1..], false)
  }

  /** The number of underscores in `s`. */
  function Underscores(s: string): nat
  {
    if |s| == 0 then 0 else (if s[0] == '_' then 1 else 0) + Underscores(s[1..])
  }

  /** No underscore survives the conversion. */
  lemma {:induction false} SquashDropsUnderscores(s: string, up: bool)
    ensures '_' !in Squash(s, up)
    ensures |Squash(s, up)| == |s| - Underscores(s)
    decreases |s|
  {
    if |s| > 0 {
      if s[0] == '_' {
        SquashDropsUnderscores(s[1..], true);
      } else {
        SquashDropsUnderscores(s[1..], false);
      }
    }
  }

  /** A name without underscores is kept, apart from the first character when `up`. */
  lemma {:induction false} SquashPlain(s: string)
    requires '_' !in s
    ensures Squash(s, false) == s
    decreases |s|
  {
    if |s| > 0 {
      assert s[0] in s;
      assert forall i | 0 <= i < |s[1..]| :: s[1..][i] == s[i + 1];
      SquashPlain(s[1..]);
    }
  }

  /** One turn of the Go loop (drop the first `_`, upper-case what follows) does not change the CamelCase form. */
  lemma {:induction false} SquashStep(p: string, x: char, rest: string, up: bool)
    requires '_' !in p
    ensures Squash(p + ['_', x] + rest, up) == Squash(p + [Upper(x)] + rest, up)
    decreases |p|
  {
    if |p| == 0 {
      assert p + ['_', x] + rest == ['_'] + ([x] + rest);
      assert p + [Upper(x)] + rest == [Upper(x)] + rest;
      assert (['_'] + ([x] + rest))[1..] == [x] + rest;
      assert ([x] + rest)[1..] == rest;
      assert ([Upper(x)] + rest)[1..] == rest;
    } else {
      var q := p[1..];
      assert p == [p[0]] + q;
      assert p[0] != '_' && '_' !in q;
      SquashStep(q, x, rest, false);
      assert p + ['_', x] + rest == [p[0]] + (q + ['_', x] + rest);
      assert p + [Upper(x)] + rest == [p[0]] + (q + [Upper(x)] + rest);
    }
  }

  /**
   * Removing the first underscore, found after the first character, and
   * upper-casing what follows it keeps the CamelCase form, the first
   * character and whether the name ends in `_`.
   */
  lemma UnderscoreRemoved(nid: string, idx: nat)
    requires 0 < idx && idx + 2 <= |nid| && nid[idx] == '_' && '_' !in nid[..idx]
    ensures var next := nid[..idx] + [Upper(nid[idx + 1])] + nid[idx + 2..];
      |next| == |nid| - 1 && next[0] == nid[0] &&
      Squash(next, true) == Squash(nid, true) &&
      (next[|next| - 1] == '_') == (nid[|nid| - 1] == '_')
  {
    assert nid == nid[..idx] + ['_', nid[idx + 1]] + nid[idx + 2..];
    SquashStep(nid[..idx], nid[idx + 1], nid[idx + 2..], true);
  }

  /**
   * `identifierToGoIdentifier`: upper-cases the first character, then, while
   * the first `_` is not at position 0, removes it and upper-cases the
   * character after it. An empty name panics on `identifier[0]`, and a `_`
   * left as the last character panics on the slice after it.
   */
  method IdentifierToGoIdentifier(identifier: string) returns (r: Outcome)
    ensures |identifier| == 0 ==> r == Panicked(IndexOutOfRange)
    ensures r.Done? <==> |identifier| > 0 && (identifier[0] == '_' || identifier[|identifier| - 1] != '_')
    ensures r.Panicked? && |identifier| > 0 ==> r.reason == SliceOutOfRange
    ensures r.Done? && identifier[0] == '_' ==> r.text == identifier
    ensures r.Done? && identifier[0] != '_' ==> r.text == Squash(identifier, true)
  {
    if |identifier| == 0 {
      return Panicked(IndexOutOfRange);
    }
    var nid := [Upper(identifier[0])] + identifier[1..];
    assert Squash(nid, true) == Squash(identifier, true);
    var idx := IndexOf(nid, '_');
    while idx > 0
      invariant |nid| > 0 && idx == IndexOf(nid, '_')
      invariant nid[0] == Upper(identifier[0])
      invariant identifier[0] == '_' ==> nid == identifier
      invariant Squash(nid, true) == Squash(identifier, true)
      invariant (nid[|nid| - 1] == '_') == (identifier[|identifier| - 1] == '_')
      decreases |nid|
    {
      if idx + 2 > |nid| {
        return Panicked(SliceOutOfRange);
      }
      var next := nid[..idx] + [Upper(nid[idx + 1])] + nid[idx + 2..];
      UnderscoreRemoved(nid, idx);
      nid := next;
      idx := IndexOf(nid, '_');
    }
    if idx == -1 {
      SquashPlain(nid[1..]);
      assert nid == [nid[0]] + nid[1..];
      assert nid[0] in nid;
    }
    return Done(nid);
  }

  /** Converting an already converted name changes nothing. */
  lemma SquashIdempotent(s: string)
    requires |Squash(s, true)| > 0
    ensures Squash(Squash(s, true), true) == Squash(s, true)
  {
    var t := Squash(s, true);
    SquashDropsUnderscores(s, true);
    SquashFirstUpper(s);
    SquashPlain(t[1..]);
    assert t[0] in t;
    assert forall c | c in t[1..] :: c in t;
    assert t == [t[0]] + t[1..];
  }

  /** The first character of a CamelCase form is upper-cased. */
  lemma {:induction false} SquashFirstUpper(s: string)
    requires |Squash(s, true)| > 0
    ensures Upper(Squash(s, true)[0]) == Squash(s, true)[0]
    decreases |s|
  {
    if s[0] == '_' {
      SquashFirstUpper(s[1..]);
    }
  }

  /** `foo_bar` becomes `FooBar` and `my__x` becomes `MyX`. */
  lemma SquashExamples()
    ensures Squash("foo_bar", true) == "FooBar"
    ensures Squash("my__x", true) == "MyX"
  {
    assert Squash("r", false) == "r";
    assert Squash("ar", false) == "ar";
    assert Squash("bar", true) == "Bar";
    assert Squash("_bar", false) == "Bar";
    assert Squash("o_bar", false) == "oBar";
    assert Squash("oo_bar", false) == "ooBar";
    assert Squash("x", true) == "X";
    assert Squash("_x", true) == "X";
    assert Squash("__x", false) == "X";
    assert Squash("y__x", false) == "yX";
  }

  /** `%d` of an `int`: a minus sign for negative numbers. */
  function Decimal(n: int): (r: string)
    ensures |r| > 0
    ensures n < 0 <==> r[0] == '-'
  {
    if n < 0 then "-" + NatText(-n) else NatText(n)
  }

  /** The value of a `%d` text. */
  function DecimalValue(s: string): int
  {
    if |s| > 0 && s[0] == '-' then -DigitsValue(s[1..]) else DigitsValue(s)
  }

  /** `%d` loses nothing: the text reads back as the number. */
  lemma DecimalRoundTrip(n: int)
    ensures DecimalValue(Decimal(n)) == n
  {
    if n < 0 {
      NatTextRoundTrip(-n);
      assert Decimal(n)[1..] == NatText(-n);
    } else {
      NatTextRoundTrip(n);
    }
  }

  /** The `[n]` prefix of a type with a quantity: empty without one, and otherwise brackets around the `%d` text of n. */
  function QuantityPrefix(t: Type): (r: string)
    ensures t.quantity.None? <==> r == ""
    ensures t.quantity.Some? ==> |r| >= 3 && r[0] == '[' && r[|r| - 1] == ']' && DecimalValue(r[1..|r| - 1]) == t.quantity.value
  {
    match t.quantity
    case None => ""
    case Some(q) =>
      DecimalRoundTrip(q);
      assert ("[" + Decimal(q) + "]")[1..|Decimal(q)| + 1] == Decimal(q);
      "[" + Decimal(q) + "]"
  }

  /**
   * `idlTypeToGoType` as written: `unsigned long` and `long` map to `uint32`
   * and `int32`, `sequence<T>` to `[]T`, and any other name is kept. A
   * `sequence` with two parameters reads a third one and panics.
   */
  function IdlTypeToGoType(t: Type): (r: Outcome)
    ensures r.Done? <==> t.name != "sequence" || |t.templateParameters| == 1
    ensures r.Done? ==> |r.text| >= |QuantityPrefix(t)| && r.text[..|QuantityPrefix(t)|] == QuantityPrefix(t)
    ensures t.name == "unsigned long" ==> r == Done(QuantityPrefix(t) + "uint32")
    ensures t.name == "long" ==> r == Done(QuantityPrefix(t) + "int32")
    ensures t.name == "sequence" && |t.templateParameters| == 1 ==>
              r == Done(QuantityPrefix(t) + "[]" + t.templateParameters[0].name)
    ensures t.name == "sequence" && |t.templateParameters| == 2 ==> r == Panicked(IndexOutOfRange)
    ensures t.name == "sequence" && |t.templateParameters| !in {1, 2} ==> r == Panicked(TooManyParams)
    ensures !(t.name in {"unsigned long", "long", "sequence"}) ==> r == Done(QuantityPrefix(t) + t.name)
  {
    var prefix := QuantityPrefix(t);
    if t.name == "unsigned long" then Done(prefix + "uint32")
    else if t.name == "long" then Done(prefix + "int32")
    else if t.name == "sequence" then
      var ps := t.templateParameters;
      if |ps| == 1 then Done(prefix + "[]" + ps[0].name)
      else if |ps| == 2 then Panicked(IndexOutOfRange)
      else Panicked(TooManyParams)
    else Done(prefix + t.name)
  }

  /** `unsigned long[4]` becomes `[4]uint32`, `sequence<Foo>` becomes `[]Foo`, and `long` becomes `int32`. */
  lemma GoTypeExamples()
    ensures IdlTypeToGoType(Type("unsigned long", Some(4), [])) == Done("[4]uint32")
    ensures IdlTypeToGoType(Type("sequence", None, [Type("Foo", None, [])])) == Done("[]Foo")
    ensures IdlTypeToGoType(Type("long", None, [])) == Done("int32")
  {
    assert Decimal(4) == "4";
  }

  /** `idlTypeToGoType` with the bound of a two-parameter sequence taken from its second parameter. */
  function IdlTypeToGoTypeIntended(t: Type): (r: Outcome)
    ensures r.Done? <==> t.name != "sequence" || |t.templateParameters| in {1, 2}
    ensures r.Done? ==> |r.text| >= |QuantityPrefix(t)| && r.text[..|QuantityPrefix(t)|] == QuantityPrefix(t)
    ensures t.name != "sequence" || |t.templateParameters| != 2 ==> r == IdlTypeToGoType(t)
    ensures t.name == "sequence" && |t.templateParameters| == 2 ==>
              r == Done(QuantityPrefix(t) + "[" + t.templateParameters[1].name + "]" + t.templateParameters[0].name)
  {
    var prefix := QuantityPrefix(t);
    if t.name == "sequence" && |t.templateParameters| == 2 then
      var ps := t.templateParameters;
      Done(prefix + "[" + ps[1].name + "]" + ps[0].name)
    else IdlTypeToGoType(t)
  }

  /** `sequence<Foo, 10>`: the code as written panics, the intended one gives `[10]Foo`. */
  lemma BoundedSequenceCounterexample()
    ensures IdlTypeToGoType(Type("sequence", None, [Type("Foo", None, []), Type("10", None, [])])) ==
            Panicked(IndexOutOfRange)
    ensures IdlTypeToGoTypeIntended(Type("sequence", None, [Type("Foo", None, []), Type("10", None, [])])) ==
            Done("[10]Foo")
  {
  }
}
