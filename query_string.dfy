/**
  The query-string builder of the service (`buildParams`): it walks the
  parameter object in iteration order, drops every entry whose value is falsy,
  and writes the kept entries as `?k=v&k=v...`, without any URL encoding.
 */
module QueryBuilder {

  /** The JavaScript values a query parameter may hold in this model. */
  datatype Value = Null | Undefined | Bool(b: bool) | Int(i: int) | Str(s: string)

  /** JavaScript truthiness: `null`, `undefined`, `false`, `0` and `''` are falsy. */
  predicate Truthy(v: Value)
  {
    match v
    case Null => false
    case Undefined => false
    case Bool(b) => b
    case Int(i) => i != 0
    case Str(s) => s != ""
  }

  /** One property of the parameter object, as `for (let i in params)` visits it. */
  datatype Entry = Entry(key: string, value: Value)

  /** The `params` argument: falsy (left out, `null`, ...) or an object's entries in iteration order. */
  datatype Params = Absent | Object(entries: seq<Entry>)

  function Digit(d: nat): (c: char)
    requires d < 10
    ensures '0' <= c <= '9'
  {
    "0123456789"[d]
  }

  /** Decimal text of a natural number, as JavaScript's `String(n)` writes an integer. */
  function NatText(n: nat): (r: string)
    ensures |r| > 0
    ensures forall k :: 0 <= k < |r| ==> '0' <= r[k] <= '9'
    ensures r[0] == '0' ==> n == 0
  {
    if n < 10 then [Digit(n)] else NatText(n / 10) + [Digit(n % 10)]
  }

  /** The number a string of decimal digits denotes (the inverse reading of `NatText`). */
  function DecimalValue(s: string): nat
    requires forall k :: 0 <= k < |s| ==> '0' <= s[k] <= '9'
  {
    if s == [] then 0 else DecimalValue(s[..|s| - 1]) * 10 + (s[|s| - 1] as int - '0' as int)
  }

  /** `NatText` loses nothing: reading its digits back gives the number. */
  lemma {:induction false} NatTextRoundTrip(n: nat)
    ensures DecimalValue(NatText(n)) == n
  {
    var s := NatText(n);
    if n >= 10 {
      assert s[..|s| - 1] == NatText(n / 10);
      NatTextRoundTrip(n / 10);
    }
  }

  /** Decimal text of an integer, as JavaScript's `String(i)` writes it. */
  function IntText(i: int): string
  {
    if i < 0 then "-" + NatText(-i) else NatText(i)
  }

  /** The text of an integer starts with `-` exactly when it is negative, and its digits read back as its magnitude. */
  lemma IntTextShape(i: int)
    ensures var r := IntText(i);
            |r| > 0 && (r[0] == '-' <==> i < 0) &&
            var digits := if i < 0 then r[1..] else r;
            digits != [] && (forall k :: 0 <= k < |digits| ==> '0' <= digits[k] <= '9') &&
            DecimalValue(digits) == if i < 0 then -i else i
  {
    var r := IntText(i);
    if i < 0 {
      assert r[1..] == NatText(-i);
    }
    NatTextRoundTrip(if i < 0 then -i else i);
  }

  /** String conversion of a value, as `'=' + params[i]` performs it. */
  function Text(v: Value): string
  {
    match v
    case Null => "null"
    case Undefined => "undefined"
    case Bool(b) => if b then "true" else "false"
    case Int(i) => IntText(i)
    case Str(s) => s
  }

  /** `key=value`, both written verbatim. */
  function Pair(e: Entry): string
  {
    e.key + "=" + Text(e.value)
  }

  /** The entries with a truthy value, in their original order. */
  function Kept(es: seq<Entry>): (ks: seq<Entry>)
    ensures |ks| <= |es|
  {
    if es == [] then []
    else
      var last := es[|es| - 1];
      Kept(es[..|es| - 1]) + (if Truthy(last.value) then [last] else [])
  }

  function Pairs(ks: seq<Entry>): (ps: seq<string>)
    ensures |ps| == |ks|
  {
    seq(|ks|, i requires 0 <= i < |ks| => Pair(ks[i]))
  }

  /** `parts` separated by `sep`. */
  function Join(parts: seq<string>, sep: string): string
  {
    if parts == [] then ""
    else if |parts| == 1 then parts[0]
    else parts[0] + sep + Join(parts[1..], sep)
  }

  /**
    The query string the service appends to a URL: empty when nothing is kept,
    otherwise `?` followed by the kept `key=value` pairs joined with `&`.
   */
  function QueryString(p: Params): string
  {
    match p
    case Absent => ""
    case Object(es) =>
      var ks := Kept(es);
      if ks == [] then "" else "?" + Join(Pairs(ks), "&")
  }

  /** What the loop of `buildParams` has written after visiting the kept entries `ks`. */
  function Written(ks: seq<Entry>): string
  {
    if ks == [] then ""
    else Written(ks[..|ks| - 1]) + (if |ks| == 1 then "?" else "&") + Pair(ks[|ks| - 1])
  }

  /** `parts` with `?` before the first and `&` before each later one. */
  function Separated(parts: seq<string>): string
  {
    if parts == [] then ""
    else Separated(parts[..|parts| - 1]) + (if |parts| == 1 then "?" else "&") + parts[|parts| - 1]
  }

  lemma {:induction false} JoinSnoc(parts: seq<string>, p: string, sep: string)
    requires parts != []
    ensures Join(parts + [p], sep) == Join(parts, sep) + sep + p
  {
    if |parts| == 1 {
      assert (parts + [p])[1..] == [p];
    } else {
      assert (parts + [p])[1..] == parts[1..] + [p];
      JoinSnoc(parts[1..], p, sep);
    }
  }

  lemma SeparatedSnoc(parts: seq<string>, p: string)
    ensures Separated(parts + [p]) == Separated(parts) + (if parts == [] then "?" else "&") + p
  {
    assert (parts + [p])[..|parts|] == parts;
  }

  /** Writing `?` before the first piece and `&` before each later one is `?` plus the pieces joined with `&`. */
  lemma {:induction false} SeparatedIsJoin(parts: seq<string>)
    requires parts != []
    ensures Separated(parts) == "?" + Join(parts, "&")
  {
    var init, last := parts[..|parts| - 1], parts[|parts| - 1];
    assert parts == init + [last];
    SeparatedSnoc(init, last);
    if init != [] {
      SeparatedIsJoin(init);
      JoinSnoc(init, last, "&");
    }
  }

  lemma PairsSnoc(ks: seq<Entry>, e: Entry)
    ensures Pairs(ks + [e]) == Pairs(ks) + [Pair(e)]
  {
    assert (ks + [e])[..|ks|] == ks;
  }

  /** What the loop writes is the `key=value` pairs of the kept entries, separated by `?` then `&`. */
  lemma {:induction false} WrittenIsSeparated(ks: seq<Entry>)
    ensures Written(ks) == Separated(Pairs(ks))
  {
    if ks != [] {
      var init, last := ks[..|ks| - 1], ks[|ks| - 1];
      assert ks == init + [last];
      WrittenIsSeparated(init);
      PairsSnoc(init, last);
      SeparatedSnoc(Pairs(init), Pair(last));
    }
  }

  /** The loop's left-to-right writing produces the `?`-then-`&`-joined form. */
  lemma WrittenIsJoin(ks: seq<Entry>)
    requires ks != []
    ensures Written(ks) == "?" + Join(Pairs(ks), "&")
  {
    WrittenIsSeparated(ks);
    SeparatedIsJoin(Pairs(ks));
  }

  lemma KeptStep(es: seq<Entry>, i: nat)
    requires i < |es|
    ensures Kept(es[..i + 1]) == Kept(es[..i]) + (if Truthy(es[i].value) then [es[i]] else [])
  {
    assert es[..i + 1][..i] == es[..i];
  }

  lemma WrittenStep(ks: seq<Entry>, e: Entry)
    ensures Written(ks + [e]) == Written(ks) + ((if ks == [] then "?" else "&") + e.key + "=" + Text(e.value))
  {
    assert (ks + [e])[..|ks|] == ks;
  }

  /** `buildParams`: the loop over the entries, with its `qString` and `count`. */
  method BuildParams(params: Params) returns (qString: string)
    ensures qString == QueryString(params)
  {
    if params.Absent? {
      return "";
    }
    var es := params.entries;
    qString := "";
    var count := 0;
    for i := 0 to |es|
      invariant count == |Kept(es[..i])|
      invariant qString == Written(Kept(es[..i]))
    {
      KeptStep(es, i);
      if Truthy(es[i].value) {
        WrittenStep(Kept(es[..i]), es[i]);
        assert count == 0 <==> Kept(es[..i]) == [];
        if count == 0 {
          qString := qString + ("?" + es[i].key + "=" + Text(es[i].value));
        } else {
          qString := qString + ("&" + es[i].key + "=" + Text(es[i].value));
        }
        count := count + 1;
        assert qString == Written(Kept(es[..i]) + [es[i]]);
      } else {
        assert Kept(es[..i + 1]) == Kept(es[..i]);
      }
    }
    assert es[..|es|] == es;
    if Kept(es) != [] {
      WrittenIsJoin(Kept(es));
    }
  }

  /** Filtering distributes over concatenation, so the kept entries keep their relative order. */
  lemma {:induction false} KeptAppend(a: seq<Entry>, b: seq<Entry>)
    ensures Kept(a + b) == Kept(a) + Kept(b)
  {
    if b != [] {
      var init := b[..|b| - 1];
      assert (a + b)[..|a + b| - 1] == a + init;
      KeptAppend(a, init);
    } else {
      assert a + b == a;
    }
  }

  /** An entry is kept exactly when it occurs among the entries with a truthy value. */
  lemma {:induction false} KeptMembers(es: seq<Entry>, e: Entry)
    ensures e in Kept(es) <==> e in es && Truthy(e.value)
  {
    if es != [] {
      var init := es[..|es| - 1];
      KeptMembers(init, e);
      assert es == init + [es[|es| - 1]];
    }
  }

  /** The number of entries whose value is truthy. */
  function TruthyCount(es: seq<Entry>): nat
  {
    if es == [] then 0 else (if Truthy(es[0].value) then 1 else 0) + TruthyCount(es[1..])
  }

  /** The final `count` of the loop: one per truthy entry. */
  lemma {:induction false} KeptLength(es: seq<Entry>)
    ensures |Kept(es)| == TruthyCount(es)
  {
    if es != [] {
      assert es == [es[0]] + es[1..];
      KeptAppend([es[0]], es[1..]);
      assert Kept([es[0]]) == Kept([]) + (if Truthy(es[0].value) then [es[0]] else []);
      KeptLength(es[1..]);
    }
  }

  /** The query string is empty exactly when `params` is falsy or no value in it is truthy. */
  lemma QueryStringEmpty(p: Params)
    ensures QueryString(p) == "" <==> p.Absent? || forall e :: e in p.entries ==> !Truthy(e.value)
  {
    if p.Object? {
      var ks := Kept(p.entries);
      if ks != [] {
        KeptMembers(p.entries, ks[0]);
      } else {
        forall e | e in p.entries
          ensures !Truthy(e.value)
        {
          KeptMembers(p.entries, e);
        }
      }
    }
  }

  /** The literal case `{active: true, page: 0}`: `page=0` drops out because `0` is falsy. */
  lemma ActiveTrueZeroPage()
    ensures QueryString(Object([Entry("active", Bool(true)), Entry("page", Int(0))])) == "?active=true"
  {
  }
}
