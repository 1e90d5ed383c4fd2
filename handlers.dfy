/** Handlers: the `tool_*` functions `_dispatch_tool` finds by name, the
    naming transform that links a tool name to a handler, and Python's
    binding of a parameter bag as keyword arguments (`handler(**params)`). */
module Handlers {
  import opened Json

  // ---------------------------------------------------------------------
  // Naming transform
  // ---------------------------------------------------------------------

  const HandlerPrefix: string := "tool_"

  /** `method.replace(".", "_")`. */
  function ReplaceDots(m: string): string {
    seq(|m|, i requires 0 <= i < |m| => if m[i] == '.' then '_' else m[i])
  }

  /** `f"tool_{func_name}"`: the identifier looked up for tool `m`. */
  function HandlerName(m: string): string {
    HandlerPrefix + ReplaceDots(m)
  }

  /** Two characters the transform does not tell apart. */
  predicate SameUpToDot(a: char, b: char) {
    a == b || (a in "._" && b in "._")
  }

  /** The handler identifier is the prefix followed by the name, five
      characters longer, with no dot left in it. */
  lemma HandlerNameShape(m: string)
    ensures |HandlerName(m)| == |m| + 5
    ensures HandlerName(m)[..5] == "tool_"
    ensures '.' !in HandlerName(m)
    ensures forall i :: 0 <= i < |m| && m[i] != '.' ==> HandlerName(m)[i + 5] == m[i]
    ensures forall i :: 0 <= i < |m| && m[i] == '.' ==> HandlerName(m)[i + 5] == '_'
  {
    var h := HandlerName(m);
    assert forall i :: 0 <= i < |m| ==> h[i + 5] == ReplaceDots(m)[i];
    forall i | 0 <= i < |h| ensures h[i] != '.' {
      if i >= 5 {
        assert h[i] == ReplaceDots(m)[i - 5];
      }
    }
  }

  /** Two tool names reach the same handler exactly when they have the same
      length and differ at most by '.' against '_'. */
  lemma SameHandlerIff(a: string, b: string)
    ensures HandlerName(a) == HandlerName(b) <==>
              |a| == |b| && forall i :: 0 <= i < |a| ==> SameUpToDot(a[i], b[i])
  {
    var ha, hb := HandlerName(a), HandlerName(b);
    if ha == hb {
      assert |a| == |b|;
      forall i | 0 <= i < |a| ensures SameUpToDot(a[i], b[i]) {
        assert ha[i + 5] == hb[i + 5];
        assert ha[i + 5] == ReplaceDots(a)[i];
        assert hb[i + 5] == ReplaceDots(b)[i];
      }
    }
    if |a| == |b| && forall i :: 0 <= i < |a| ==> SameUpToDot(a[i], b[i]) {
      assert ReplaceDots(a) == ReplaceDots(b);
    }
  }

  // ---------------------------------------------------------------------
  // Handlers and keyword binding
  // ---------------------------------------------------------------------

  /** One declared parameter of a handler; `default` is None for a
      required parameter. */
  datatype Param = Param(name: string, default: Option<Value>)

  /** What to raise, as far as the server distinguishes it: a
      NotImplementedError (or a subclass) or any other Exception. */
  datatype ExceptionClass = NotImplementedErrorClass | OtherExceptionClass

  /** What a handler call does: returns a value or raises. */
  datatype Outcome = Returned(value: Value) | Raised(cls: ExceptionClass, message: string)

  /** A handler: its declared parameters and what it does with the bound
      arguments. The body stands for code outside this model. */
  datatype Handler = Handler(params: seq<Param>, body: map<string, Value> -> Outcome)

  /** The handler namespace: `globals()` restricted to functions, by name. */
  type HandlerTable = map<string, Handler>

  /** A parameter bag: the request's `params` dict, in its key order. */
  type Bag = seq<(string, Value)>

  function ParamNames(ps: seq<Param>): (ns: seq<string>)
    ensures |ns| == |ps|
    ensures forall i :: 0 <= i < |ps| ==> ns[i] == ps[i].name
  {
    if ps == [] then [] else [ps[0].name] + ParamNames(ps[1..])
  }

  function BagKeys(bag: Bag): (ks: seq<string>)
    ensures |ks| == |bag|
    ensures forall i :: 0 <= i < |bag| ==> ks[i] == bag[i].0
  {
    if bag == [] then [] else [bag[0].0] + BagKeys(bag[1..])
  }

  /** `bag[n]` for a key present in the bag. */
  function BagGet(bag: Bag, n: string): (v: Value)
    requires n in BagKeys(bag)
    ensures exists i :: 0 <= i < |bag| && bag[i] == (n, v)
  {
    if bag[0].0 == n then bag[0].1 else BagGet(bag[1..], n)
  }

  /** Python forbids two parameters of one function with the same name. */
  predicate DistinctParams(ps: seq<Param>) {
    forall i, j :: 0 <= i < j < |ps| ==> ps[i].name != ps[j].name
  }

  /** Why binding failed. */
  datatype BindError =
    | UnexpectedKeyword(key: string)
    | MissingArguments(names: seq<string>)

  /** The first key of the bag, in its order, that names no parameter. */
  function FirstUnexpected(bag: Bag, ps: seq<Param>): (r: Option<string>)
    ensures r.None? <==> forall i :: 0 <= i < |bag| ==> bag[i].0 in ParamNames(ps)
    ensures r.Some? ==> exists i :: && 0 <= i < |bag| && bag[i].0 == r.value
                                    && r.value !in ParamNames(ps)
                                    && forall j :: 0 <= j < i ==> bag[j].0 in ParamNames(ps)
  {
    if bag == [] then None
    else if bag[0].0 !in ParamNames(ps) then Some(bag[0].0)
    else
      var rest := FirstUnexpected(bag[1..], ps);
      assert forall i :: 1 <= i < |bag| ==> bag[i] == bag[1..][i - 1];
      rest
  }

  /** The required parameters the bag does not supply, in declaration
      order. */
  function MissingRequired(ps: seq<Param>, keys: seq<string>): (ms: seq<string>)
    ensures forall n :: n in ms <==> exists p :: p in ps && p.default.None? && p.name == n && n !in keys
  {
    if ps == [] then []
    else
      var rest := MissingRequired(ps[1..], keys);
      assert forall p :: p in ps <==> p == ps[0] || p in ps[1..];
      if ps[0].default.None? && ps[0].name !in keys then [ps[0].name] + rest else rest
  }

  /** The value a parameter is bound to: the bag's entry if supplied, the
      default otherwise. */
  function ArgValue(bag: Bag, p: Param): Value
    requires p.name in BagKeys(bag) || p.default.Some?
  {
    if p.name in BagKeys(bag) then BagGet(bag, p.name) else p.default.value
  }

  /** The arguments of parameters `ps`, as a map from name to value. */
  function Arguments(bag: Bag, ps: seq<Param>): (args: map<string, Value>)
    requires forall p :: p in ps ==> p.name in BagKeys(bag) || p.default.Some?
    ensures forall n :: n in args <==> n in ParamNames(ps)
  {
    if ps == [] then map[]
    else Arguments(bag, ps[1..])[ps[0].name := ArgValue(bag, ps[0])]
  }

  /** Binding `handler(**bag)` to parameters `ps`, as CPython does it:
      an unknown keyword is reported first, then the missing required
      parameters; otherwise every parameter gets the supplied value or its
      default. */
  function Bind(ps: seq<Param>, bag: Bag): Result<map<string, Value>, BindError> {
    match FirstUnexpected(bag, ps)
    case Some(k) => Err(UnexpectedKeyword(k))
    case None =>
      var missing := MissingRequired(ps, BagKeys(bag));
      if missing != [] then Err(MissingArguments(missing))
      else Ok(Arguments(bag, ps))
  }

  /** No required parameter is left out exactly when none is missing. */
  lemma NoneMissingIff(ps: seq<Param>, keys: seq<string>)
    ensures MissingRequired(ps, keys) == [] <==>
              forall p :: p in ps && p.default.None? ==> p.name in keys
  {
    var ms := MissingRequired(ps, keys);
    if ms != [] {
      assert ms[0] in ms;
    }
  }

  /** Binding succeeds exactly when every key names a parameter and every
      required parameter is supplied. */
  lemma BindOkIff(ps: seq<Param>, bag: Bag)
    ensures Bind(ps, bag).Ok? <==>
              && (forall i :: 0 <= i < |bag| ==> bag[i].0 in ParamNames(ps))
              && (forall p :: p in ps && p.default.None? ==> p.name in BagKeys(bag))
  {
    NoneMissingIff(ps, BagKeys(bag));
  }

  /** A successful binding binds every parameter, and nothing else, to the
      supplied value or else its default. */
  lemma BindValues(ps: seq<Param>, bag: Bag)
    requires DistinctParams(ps)
    requires Bind(ps, bag).Ok?
    ensures forall n :: n in Bind(ps, bag).value <==> n in ParamNames(ps)
    ensures forall i :: 0 <= i < |ps| ==>
              Bind(ps, bag).value[ps[i].name] ==
                if ps[i].name in BagKeys(bag) then BagGet(bag, ps[i].name) else ps[i].default.value
  {
    NoneMissingIff(ps, BagKeys(bag));
    ArgumentsAt(bag, ps);
  }

  lemma {:induction false} ArgumentsAt(bag: Bag, ps: seq<Param>)
    requires DistinctParams(ps)
    requires forall p :: p in ps ==> p.name in BagKeys(bag) || p.default.Some?
    ensures forall i :: 0 <= i < |ps| ==> Arguments(bag, ps)[ps[i].name] == ArgValue(bag, ps[i])
  {
    if ps != [] {
      var tail := ps[1..];
      assert DistinctParams(tail) by {
        forall i, j | 0 <= i < j < |tail| ensures tail[i].name != tail[j].name {
          assert tail[i] == ps[i + 1] && tail[j] == ps[j + 1];
        }
      }
      ArgumentsAt(bag, tail);
      forall i | 0 <= i < |ps| ensures Arguments(bag, ps)[ps[i].name] == ArgValue(bag, ps[i]) {
        if i > 0 {
          assert ps[i] == tail[i - 1];
          assert ps[i].name != ps[0].name;
        }
      }
    }
  }

  /** An unknown keyword is what is reported, whatever else is wrong, and
      it is the first unknown key of the bag. */
  lemma UnexpectedReportedFirst(ps: seq<Param>, bag: Bag, i: int)
    requires 0 <= i < |bag|
    requires bag[i].0 !in ParamNames(ps)
    requires forall j :: 0 <= j < i ==> bag[j].0 in ParamNames(ps)
    ensures Bind(ps, bag) == Err(UnexpectedKeyword(bag[i].0))
  {
    var r := FirstUnexpected(bag, ps);
    assert r.Some?;
    var w :| && 0 <= w < |bag| && bag[w].0 == r.value && r.value !in ParamNames(ps)
             && forall j :: 0 <= j < w ==> bag[j].0 in ParamNames(ps);
    assert w == i;
  }

  /** A bag that binds yields exactly the map that holds every parameter,
      and nothing else, at its supplied value or else its default. */
  lemma BindYields(ps: seq<Param>, bag: Bag, args: map<string, Value>)
    requires DistinctParams(ps)
    requires forall i :: 0 <= i < |bag| ==> bag[i].0 in ParamNames(ps)
    requires forall i :: 0 <= i < |ps| ==> ps[i].name in BagKeys(bag) || ps[i].default.Some?
    requires forall n :: n in args <==> n in ParamNames(ps)
    requires forall i :: 0 <= i < |ps| ==>
               args[ps[i].name] == if ps[i].name in BagKeys(bag) then BagGet(bag, ps[i].name) else ps[i].default.value
    ensures Bind(ps, bag) == Ok(args)
  {
    assert Bind(ps, bag).Ok? by {
      forall p | p in ps && p.default.None? ensures p.name in BagKeys(bag) {
        var i :| 0 <= i < |ps| && ps[i] == p;
      }
      BindOkIff(ps, bag);
    }
    var bound := Bind(ps, bag).value;
    assert bound.Keys == args.Keys by {
      BindValues(ps, bag);
    }
    forall n | n in bound ensures bound[n] == args[n] {
      BindValues(ps, bag);
      var i :| 0 <= i < |ps| && ParamNames(ps)[i] == n;
      assert bound[ps[i].name] == args[ps[i].name];
    }
    assert bound == args;
  }

  /** With no parameter required, an empty bag binds every parameter to its
      default. */
  lemma EmptyBagBindsDefaults(ps: seq<Param>)
    requires DistinctParams(ps)
    requires forall p :: p in ps ==> p.default.Some?
    ensures Bind(ps, []).Ok?
    ensures forall i :: 0 <= i < |ps| ==> Bind(ps, []).value[ps[i].name] == ps[i].default.value
  {
    BindOkIff(ps, []);
    BindValues(ps, []);
  }

  // ---------------------------------------------------------------------
  // Messages: str(exc) of the TypeError raised by a failed binding
  // ---------------------------------------------------------------------

  function DigitChar(d: nat): char
    requires d < 10
  {
    ('0' as int + d) as char
  }

  predicate IsDigit(c: char) {
    '0' <= c <= '9'
  }

  /** Decimal representation of a natural number (`str(n)`). */
  function NatToString(n: nat): (s: string)
    ensures |s| >= 1
    ensures forall i :: 0 <= i < |s| ==> IsDigit(s[i])
  {
    if n < 10 then [DigitChar(n)] else NatToString(n / 10) + [DigitChar(n % 10)]
  }

  /** The number a string of decimal digits denotes (`int(s)`), read from
      the left. */
  function DecimalValue(s: string): nat
    requires forall i :: 0 <= i < |s| ==> IsDigit(s[i])
  {
    if s == [] then 0 else 10 * DecimalValue(s[..|s| - 1]) + DigitValue(s[|s| - 1])
  }

  function DigitValue(c: char): nat
    requires IsDigit(c)
  {
    c as int - '0' as int
  }

  /** Reading back the decimal representation gives the number. */
  lemma {:induction false} NatToStringRoundTrip(n: nat)
    ensures DecimalValue(NatToString(n)) == n
  {
    var s := NatToString(n);
    if n >= 10 {
      NatToStringRoundTrip(n / 10);
      assert s[..|s| - 1] == NatToString(n / 10);
    } else {
      assert s[..|s| - 1] == [];
    }
  }

  /** `sub` sits in `s` at position `p`. */
  predicate OccursAt(sub: string, s: string, p: int) {
    0 <= p && p + |sub| <= |s| && s[p..p + |sub|] == sub
  }

  /** `sub in s` for Python strings. */
  ghost predicate Occurs(sub: string, s: string) {
    exists p :: OccursAt(sub, s, p)
  }

  lemma OccursWithin(sub: string, s: string, pre: string, post: string)
    requires Occurs(sub, s)
    ensures Occurs(sub, pre + s + post)
  {
    var p :| OccursAt(sub, s, p);
    var t := pre + s + post;
    assert t[|pre| + p..|pre| + p + |sub|] == s[p..p + |sub|];
    assert OccursAt(sub, t, |pre| + p);
  }

  lemma OccursSelf(sub: string)
    ensures Occurs(sub, sub)
  {
    assert sub[0..|sub|] == sub;
    assert OccursAt(sub, sub, 0);
  }

  function Quoted(n: string): string {
    "'" + n + "'"
  }

  /** Names joined with ", " between quoted names. */
  function CommaJoin(ns: seq<string>): string {
    if ns == [] then ""
    else if |ns| == 1 then Quoted(ns[0])
    else Quoted(ns[0]) + ", " + CommaJoin(ns[1..])
  }

  /** CPython's list of missing names: `'a'`, `'a' and 'b'`,
      `'a', 'b', and 'c'`. */
  function NameList(ns: seq<string>): string
    requires ns != []
  {
    if |ns| == 1 then Quoted(ns[0])
    else if |ns| == 2 then Quoted(ns[0]) + " and " + Quoted(ns[1])
    else CommaJoin(ns[..|ns| - 1]) + ", and " + Quoted(ns[|ns| - 1])
  }

  /** The TypeError message for handler `f`. */
  function BindMessage(f: string, e: BindError): string {
    match e
    case UnexpectedKeyword(k) => f + "()" + " got an unexpected keyword argument " + Quoted(k)
    case MissingArguments(ns) =>
      if ns == [] then f + "()" + " missing 0 required positional arguments"
      else
        f + "()" + " missing " + NatToString(|ns|) + " required positional"
        + (if |ns| == 1 then " argument: " else " arguments: ") + NameList(ns)
  }

  lemma PrefixOfConcat(a: string, b: string)
    ensures (a + b)[..|a|] == a
  {
  }

  lemma SuffixOfConcat(a: string, b: string)
    ensures (a + b)[|a|..] == b
  {
  }

  /** Every name of a non-empty list appears, quoted, in the comma-joined
      text. */
  lemma {:induction false} CommaJoinMentions(ns: seq<string>, i: int)
    requires 0 <= i < |ns|
    ensures Occurs(Quoted(ns[i]), CommaJoin(ns))
  {
    OccursSelf(Quoted(ns[i]));
    if |ns| == 1 {
    } else if i == 0 {
      OccursWithin(Quoted(ns[0]), Quoted(ns[0]), "", ", " + CommaJoin(ns[1..]));
      assert "" + Quoted(ns[0]) + (", " + CommaJoin(ns[1..])) == CommaJoin(ns);
    } else {
      CommaJoinMentions(ns[1..], i - 1);
      OccursWithin(Quoted(ns[i]), CommaJoin(ns[1..]), Quoted(ns[0]) + ", ", "");
      assert Quoted(ns[0]) + ", " + CommaJoin(ns[1..]) + "" == CommaJoin(ns);
    }
  }

  /** Every missing name appears, quoted, in CPython's list of them. */
  lemma NameListMentions(ns: seq<string>, i: int)
    requires 0 <= i < |ns|
    ensures Occurs(Quoted(ns[i]), NameList(ns))
  {
    if |ns| <= 2 {
      ShortNameListMentions(ns, i);
    } else {
      LongNameListMentions(ns, i);
    }
  }

  lemma ShortNameListMentions(ns: seq<string>, i: int)
    requires 0 <= i < |ns| <= 2
    ensures Occurs(Quoted(ns[i]), NameList(ns))
  {
    var q := Quoted(ns[i]);
    OccursSelf(q);
    if |ns| == 2 {
      var l := NameList(ns);
      assert l == "" + Quoted(ns[0]) + (" and " + Quoted(ns[1]));
      assert l == Quoted(ns[0]) + " and " + Quoted(ns[1]) + "";
      if i == 0 {
        OccursWithin(q, q, "", " and " + Quoted(ns[1]));
      } else {
        OccursWithin(q, q, Quoted(ns[0]) + " and ", "");
      }
    }
  }

  lemma LongNameListMentions(ns: seq<string>, i: int)
    requires 0 <= i < |ns| && |ns| > 2
    ensures Occurs(Quoted(ns[i]), NameList(ns))
  {
    var q, init, last := Quoted(ns[i]), CommaJoin(ns[..|ns| - 1]), Quoted(ns[|ns| - 1]);
    var l := NameList(ns);
    assert l == init + ", and " + last;
    if i == |ns| - 1 {
      OccursSelf(q);
      OccursWithin(q, q, init + ", and ", "");
      assert init + ", and " + q + "" == l;
    } else {
      assert ns[..|ns| - 1][i] == ns[i];
      CommaJoinMentions(ns[..|ns| - 1], i);
      OccursWithin(q, init, "", ", and " + last);
      assert "" + init + (", and " + last) == l;
    }
  }

  /** What the TypeError for an unexpected keyword says: the handler's
      name first, the offending key, quoted, last. */
  lemma UnexpectedKeywordMessage(f: string, k: string)
    ensures var m := BindMessage(f, UnexpectedKeyword(k));
            && |m| >= |f| + 2 + |Quoted(k)|
            && m[..|f| + 2] == f + "()"
            && m[|m| - |Quoted(k)|..] == Quoted(k)
  {
    var head := f + "()";
    var body := head + " got an unexpected keyword argument ";
    var m := BindMessage(f, UnexpectedKeyword(k));
    assert m == body + Quoted(k);
    SuffixOfConcat(body, Quoted(k));
    PrefixOfConcat(body, Quoted(k));
    PrefixOfConcat(head, " got an unexpected keyword argument ");
    assert m[..|head|] == body[..|head|];
  }

  /** What the TypeError for missing parameters says: the handler's name,
      then their number in decimal, "argument" in the singular exactly for
      one, and every missing name, quoted. */
  lemma MissingArgumentsMessage(f: string, ns: seq<string>)
    requires ns != []
    ensures var m, d := BindMessage(f, MissingArguments(ns)), NatToString(|ns|);
            && |m| >= |f| + 11 + |d|
            && m[..|f| + 11 + |d|] == f + "()" + " missing " + d
            && DecimalValue(d) == |ns|
            && (|ns| == 1 ==> Occurs(" argument: ", m))
            && (|ns| > 1 ==> Occurs(" arguments: ", m))
            && forall i :: 0 <= i < |ns| ==> Occurs(Quoted(ns[i]), m)
  {
    var m, d := BindMessage(f, MissingArguments(ns)), NatToString(|ns|);
    var word := if |ns| == 1 then " argument: " else " arguments: ";
    var head := f + "()" + " missing " + d;
    var mid := head + " required positional" + word;
    assert m == mid + NameList(ns);
    assert m[..|head|] == head by {
      PrefixOfConcat(mid, NameList(ns));
      PrefixOfConcat(head + " required positional", word);
      PrefixOfConcat(head, " required positional");
    }
    NatToStringRoundTrip(|ns|);
    OccursSelf(word);
    OccursWithin(word, word, head + " required positional", NameList(ns));
    forall i | 0 <= i < |ns| ensures Occurs(Quoted(ns[i]), m) {
      NameListMentions(ns, i);
      OccursWithin(Quoted(ns[i]), NameList(ns), mid, "");
      assert mid + NameList(ns) + "" == m;
    }
  }
}
