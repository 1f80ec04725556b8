/**
 The text a workflow definition feeds to the hasher, and why it determines the definition: two trees
 whose names avoid the delimiters have the same text exactly when they agree on everything the hash
 is meant to cover.
 */
module Definition {
  import opened Prelude
  import opened Continuation
  import opened Keys
  import opened Serial

  // ----- the text, in front of whatever follows it -----

  function TimeoutText(t: Option<U64>, rest: string): string {
    if t.None? then rest else ":t:" + (Digits(t.value) + rest)
  }

  function RetryText(r: Option<RetryPolicy>, rest: string): string {
    if r.None? then rest else
    ":r:" + (Digits(r.value.maxRetries)
      + (":" + (Digits(r.value.initialDelay / 1_000_000) + (":" + (r.value.backoff + rest)))))
  }

  function VersionText(v: Option<string>, rest: string): string {
    if v.None? then rest else ":v:" + (v.value + rest)
  }

  function OnMaxText(p: OnMax): string {
    if p.Fail? then "fail" else "exit_with_last"
  }

  function Text(order: Order, c: SCont, rest: string): string
    decreases c, 1
  {
    match c
    case STask(id, timeout, retry, version, _, _, next) =>
      "T:" + (id + TimeoutText(timeout, RetryText(retry, VersionText(version, ";" + TextOpt(order, next, rest)))))
    case SFork(id, branches, join) =>
      "F:" + (id + ("[" + BranchesText(order, branches,
        "]" + if join.Some? then "J:" + Text(order, join.value, rest) else rest)))
    case SDelay(id, ms, next) =>
      "D:" + (id + (":" + (Digits(ms) + (";" + TextOpt(order, next, rest)))))
    case SAwaitSignal(id, name, timeout, next) =>
      "S:" + (id + (":" + (name + TimeoutText(timeout, ";" + TextOpt(order, next, rest)))))
    case SBranch(id, routes, default, next) =>
      var keys := SortedKeys(order, routes.Keys);
      "B:" + (id + ("{" + RoutesText(order, c, keys,
        "}" + DefaultText(order, default, ";" + TextOpt(order, next, rest)))))
    case SLoop(id, body, max, onMax, next) =>
      "L:" + (id + (":" + (Digits(max) + (":" + (OnMaxText(onMax) +
        ("{" + Text(order, body, "}" + (";" + TextOpt(order, next, rest)))))))))
    case SChildWorkflow(id, child, next) =>
      "CW:" + (id + ("{" + Text(order, child, "}" + (";" + TextOpt(order, next, rest)))))
  }

  function TextOpt(order: Order, c: Option<SCont>, rest: string): string
    decreases c, 2
  {
    if c.None? then rest else Text(order, c.value, rest)
  }

  function DefaultText(order: Order, c: Option<SCont>, rest: string): string
    decreases c, 2
  {
    if c.None? then rest else "_=>" + Text(order, c.value, rest)
  }

  function BranchesText(order: Order, branches: seq<SCont>, rest: string): string
    decreases branches, 2
  {
    if branches == [] then rest else Text(order, branches[0], "," + BranchesText(order, branches[1..], rest))
  }

  /** The routes in the given key order; a key without a route contributes only its name. */
  function RoutesText(order: Order, c: SCont, keys: seq<string>, rest: string): string
    requires c.SBranch?
    decreases c, 0, |keys|
  {
    if keys == [] then rest else
    var tail := "," + RoutesText(order, c, keys[1..], rest);
    keys[0] + ("=>" + if keys[0] in c.routes then Text(order, c.routes[keys[0]], tail) else tail)
  }

  // ----- what the text covers -----

  /** Priorities, tags, the retry delay cap and fractions of a millisecond are not part of a definition. */
  function Essence(c: SCont): SCont
    decreases c, 1
  {
    match c
    case STask(id, timeout, retry, version, _, _, next) =>
      STask(id, timeout, EssenceRetry(retry), version, None, [], EssenceOpt(next))
    case SFork(id, branches, join) => SFork(id, EssenceSeq(branches), EssenceOpt(join))
    case SDelay(id, ms, next) => SDelay(id, ms, EssenceOpt(next))
    case SAwaitSignal(id, name, timeout, next) => SAwaitSignal(id, name, timeout, EssenceOpt(next))
    case SBranch(id, routes, default, next) =>
      SBranch(id, EssenceRoutes(c), EssenceOpt(default), EssenceOpt(next))
    case SLoop(id, body, max, onMax, next) => SLoop(id, Essence(body), max, onMax, EssenceOpt(next))
    case SChildWorkflow(id, child, next) => SChildWorkflow(id, Essence(child), EssenceOpt(next))
  }

  function EssenceRoutes(c: SCont): map<string, SCont>
    requires c.SBranch?
    decreases c, 0
  {
    map k | k in c.routes :: Essence(c.routes[k])
  }

  function EssenceRetry(r: Option<RetryPolicy>): Option<RetryPolicy> {
    if r.None? then None
    else Some(RetryPolicy(r.value.maxRetries, r.value.initialDelay / 1_000_000, r.value.backoff, None))
  }

  function EssenceOpt(c: Option<SCont>): Option<SCont>
    decreases c, 2
  {
    if c.None? then None else Some(Essence(c.value))
  }

  function EssenceSeq(cs: seq<SCont>): seq<SCont>
    decreases cs, 2
  {
    if cs == [] then [] else [Essence(cs[0])] + EssenceSeq(cs[1..])
  }

  // ----- names that avoid the delimiters -----

  predicate Avoids(s: string, chars: set<char>) {
    forall i :: 0 <= i < |s| ==> s[i] !in chars
  }

  predicate Clean(c: SCont)
    decreases c, 0
  {
    match c
    case STask(id, _, retry, version, _, _, next) =>
      && Avoids(id, {':', ';'}) && (retry.Some? ==> Avoids(retry.value.backoff, {':', ';'}))
      && (version.Some? ==> Avoids(version.value, {';'})) && CleanOpt(next)
    case SFork(id, branches, join) =>
      Avoids(id, {'['}) && (forall b :: b in branches ==> Clean(b)) && CleanOpt(join)
    case SDelay(id, _, next) => Avoids(id, {':'}) && CleanOpt(next)
    case SAwaitSignal(id, name, _, next) => Avoids(id, {':'}) && Avoids(name, {':', ';'}) && CleanOpt(next)
    case SBranch(id, routes, default, next) =>
      && Avoids(id, {'{'}) && (forall k :: k in routes ==> Avoids(k, {'=', '}'}) && Clean(routes[k]))
      && CleanOpt(default) && CleanOpt(next)
    case SLoop(id, body, _, _, next) => Avoids(id, {':'}) && Clean(body) && CleanOpt(next)
    case SChildWorkflow(id, child, next) => Avoids(id, {'{'}) && Clean(child) && CleanOpt(next)
  }

  predicate CleanOpt(c: Option<SCont>)
    decreases c, 1
  {
    c.Some? ==> Clean(c.value)
  }

  // ----- splitting a text at a delimiter -----

  /** A field that avoids `stops` ends where the first stop begins. */
  lemma {:induction false} Split(a: string, r: string, b: string, s: string, stops: set<char>)
    requires Avoids(a, stops) && Avoids(b, stops)
    requires r != [] && r[0] in stops && s != [] && s[0] in stops
    requires a + r == b + s
    ensures a == b && r == s
    decreases |a|
  {
    if a == [] {
      assert a + r == r && r[0] == (b + s)[0];
      assert b == [];
    } else {
      assert (a + r)[0] == a[0];
      assert b != [];
      assert (b + s)[0] == b[0];
      assert (a + r)[1..] == a[1..] + r && (b + s)[1..] == b[1..] + s;
      Split(a[1..], r, b[1..], s, stops);
      assert a == [a[0]] + a[1..] && b == [b[0]] + b[1..];
    }
  }

  lemma {:induction false} DigitsAvoid(n: nat, stops: set<char>)
    requires forall c :: c in stops ==> !('0' <= c <= '9')
    ensures Digits(n) != [] && Avoids(Digits(n), stops)
  {
    if n >= 10 {
      DigitsAvoid(n / 10, stops);
    }
  }

  lemma {:induction false} DigitsInjective(m: nat, n: nat)
    requires Digits(m) == Digits(n)
    ensures m == n
  {
    var table := ['0', '1', '2', '3', '4', '5', '6', '7', '8', '9'];
    var a, b := Digits(m), Digits(n);
    assert a[|a| - 1] == table[m % 10] && b[|b| - 1] == table[n % 10];
    assert m % 10 == n % 10;
    var pa, pb := (if m < 10 then "" else Digits(m / 10)), (if n < 10 then "" else Digits(n / 10));
    assert pa == a[..|a| - 1] && pb == b[..|b| - 1];
    if m >= 10 {
      DigitsAvoid(m / 10, {});
    }
    if n >= 10 {
      DigitsAvoid(n / 10, {});
    }
    if m >= 10 && n >= 10 {
      DigitsInjective(m / 10, n / 10);
    }
  }

  /** A number is read up to the first character that is not a digit. */
  lemma SplitDigits(m: nat, r: string, n: nat, s: string)
    requires r != [] && r[0] in {':', ';', '{'} && s != [] && s[0] in {':', ';', '{'}
    requires Digits(m) + r == Digits(n) + s
    ensures m == n && r == s
  {
    DigitsAvoid(m, {':', ';', '{'});
    DigitsAvoid(n, {':', ';', '{'});
    Split(Digits(m), r, Digits(n), s, {':', ';', '{'});
    DigitsInjective(m, n);
  }

  /** Equal texts with prefixes of equal length. */
  lemma Drop(p: string, r: string, q: string, s: string)
    requires p + r == q + s && |p| == |q|
    ensures p == q && r == s
  {
    assert (p + r)[..|p|] == p && (q + s)[..|q|] == q;
    assert (p + r)[|p|..] == r && (q + s)[|q|..] == s;
  }

  // ----- reading a text back -----

  /** What may follow a tree: nothing, or a delimiter that cannot start one. */
  predicate Ends(rest: string) {
    rest == [] || rest[0] in {',', ';', '}'}
  }

  function Tag(c: SCont): char {
    match c
    case STask(_, _, _, _, _, _, _) => 'T'
    case SFork(_, _, _) => 'F'
    case SDelay(_, _, _) => 'D'
    case SAwaitSignal(_, _, _, _) => 'S'
    case SBranch(_, _, _, _) => 'B'
    case SLoop(_, _, _, _, _) => 'L'
    case SChildWorkflow(_, _, _) => 'C'
  }

  lemma TextStarts(order: Order, c: SCont, rest: string)
    ensures Text(order, c, rest) != [] && Text(order, c, rest)[0] == Tag(c)
  {
  }

  /** A text that starts with a semicolon, or with a colon and one of the given marks. */
  predicate Marked(r: string, marks: set<char>) {
    r != [] && (r[0] == ';' || (|r| > 1 && r[0] == ':' && r[1] in marks))
  }

  lemma ReadTimeout(a: Option<U64>, r: string, b: Option<U64>, s: string)
    requires Marked(r, {'r', 'v'}) && Marked(s, {'r', 'v'})
    requires TimeoutText(a, r) == TimeoutText(b, s)
    ensures a == b && r == s
  {
    assert a.Some? ==> TimeoutText(a, r)[0] == ':' && TimeoutText(a, r)[1] == 't';
    assert b.Some? ==> TimeoutText(b, s)[0] == ':' && TimeoutText(b, s)[1] == 't';
    if a.Some? && b.Some? {
      Drop(":t:", Digits(a.value) + r, ":t:", Digits(b.value) + s);
      SplitDigits(a.value, r, b.value, s);
    }
  }

  lemma ReadRetry(a: Option<RetryPolicy>, r: string, b: Option<RetryPolicy>, s: string)
    requires Marked(r, {'v'}) && Marked(s, {'v'})
    requires a.Some? ==> Avoids(a.value.backoff, {':', ';'})
    requires b.Some? ==> Avoids(b.value.backoff, {':', ';'})
    requires RetryText(a, r) == RetryText(b, s)
    ensures EssenceRetry(a) == EssenceRetry(b) && r == s
  {
    assert a.Some? ==> RetryText(a, r)[0] == ':' && RetryText(a, r)[1] == 'r';
    assert b.Some? ==> RetryText(b, s)[0] == ':' && RetryText(b, s)[1] == 'r';
    if a.Some? && b.Some? {
      var a3, b3 := a.value.backoff + r, b.value.backoff + s;
      var a2 := Digits(a.value.initialDelay / 1_000_000) + (":" + a3);
      var b2 := Digits(b.value.initialDelay / 1_000_000) + (":" + b3);
      var a1, b1 := Digits(a.value.maxRetries) + (":" + a2), Digits(b.value.maxRetries) + (":" + b2);
      Drop(":r:", a1, ":r:", b1);
      SplitDigits(a.value.maxRetries, ":" + a2, b.value.maxRetries, ":" + b2);
      Drop(":", a2, ":", b2);
      SplitDigits(a.value.initialDelay / 1_000_000, ":" + a3, b.value.initialDelay / 1_000_000, ":" + b3);
      Drop(":", a3, ":", b3);
      Split(a.value.backoff, r, b.value.backoff, s, {':', ';'});
    }
  }

  lemma ReadVersion(a: Option<string>, r: string, b: Option<string>, s: string)
    requires r != [] && r[0] == ';' && s != [] && s[0] == ';'
    requires a.Some? ==> Avoids(a.value, {';'})
    requires b.Some? ==> Avoids(b.value, {';'})
    requires VersionText(a, r) == VersionText(b, s)
    ensures a == b && r == s
  {
    if a.Some? && b.Some? {
      Drop(":v:", a.value + r, ":v:", b.value + s);
      Split(a.value, r, b.value, s, {';'});
    }
  }

  /** Equal texts, with what follows them, come from trees of equal essence. */
  lemma {:induction false} Read(o: Order, o': Order, c: SCont, r: string, d: SCont, s: string)
    requires Enumerates(o) && Enumerates(o') && Clean(c) && Clean(d) && Ends(r) && Ends(s)
    requires Text(o, c, r) == Text(o', d, s)
    ensures Essence(c) == Essence(d) && r == s
    decreases c, 3
  {
    hide Essence, Clean, Enumerates;
    TextStarts(o, c, r);
    TextStarts(o', d, s);
    match c
    case STask(_, _, _, _, _, _, _) => ReadTask(o, o', c, r, d, s);
    case SFork(_, _, _) => ReadFork(o, o', c, r, d, s);
    case SDelay(_, _, _) => ReadDelay(o, o', c, r, d, s);
    case SAwaitSignal(_, _, _, _) => ReadSignal(o, o', c, r, d, s);
    case SBranch(_, _, _, _) => ReadBranch(o, o', c, r, d, s);
    case SLoop(_, _, _, _, _) => ReadLoop(o, o', c, r, d, s);
    case SChildWorkflow(_, _, _) => ReadChild(o, o', c, r, d, s);
  }

  lemma {:induction false} ReadOpt(o: Order, o': Order, c: Option<SCont>, r: string, d: Option<SCont>, s: string)
    requires Enumerates(o) && Enumerates(o') && CleanOpt(c) && CleanOpt(d) && Ends(r) && Ends(s)
    requires TextOpt(o, c, r) == TextOpt(o', d, s)
    ensures EssenceOpt(c) == EssenceOpt(d) && r == s
    decreases c, 4
  {
    hide Text, Essence, Clean, Enumerates;
    if c.Some? {
      TextStarts(o, c.value, r);
    }
    if d.Some? {
      TextStarts(o', d.value, s);
    }
    if c.Some? && d.Some? {
      Read(o, o', c.value, r, d.value, s);
    }
  }

  /** The optional rest of a chain, behind its semicolon. */
  lemma {:induction false} ReadNext(o: Order, o': Order, c: Option<SCont>, r: string, d: Option<SCont>, s: string)
    requires Enumerates(o) && Enumerates(o') && CleanOpt(c) && CleanOpt(d) && Ends(r) && Ends(s)
    requires ";" + TextOpt(o, c, r) == ";" + TextOpt(o', d, s)
    ensures EssenceOpt(c) == EssenceOpt(d) && r == s
    decreases c, 5
  {
    Drop(";", TextOpt(o, c, r), ";", TextOpt(o', d, s));
    ReadOpt(o, o', c, r, d, s);
  }

  /** The optional fields of a task start with their own marks, or are missing. */
  lemma TaskFieldMarks(c: SCont, r: string)
    requires c.STask? && r != [] && r[0] == ';'
    ensures
      var r1 := VersionText(c.version, r);
      var r2 := RetryText(c.retry, r1);
      Marked(r1, {'v'}) && Marked(r2, {'r', 'v'}) && Marked(TimeoutText(c.timeoutMs, r2), {'t', 'r', 'v'})
  {
    var r1 := VersionText(c.version, r);
    assert c.version.Some? ==> r1[0] == ':' && r1[1] == 'v';
    var r2 := RetryText(c.retry, r1);
    assert c.retry.Some? ==> r2[0] == ':' && r2[1] == 'r';
  }

  lemma {:induction false} ReadTask(o: Order, o': Order, c: SCont, r: string, d: SCont, s: string)
    requires Enumerates(o) && Enumerates(o') && Clean(c) && Clean(d) && Ends(r) && Ends(s)
    requires c.STask? && d.STask? && Text(o, c, r) == Text(o', d, s)
    ensures Essence(c) == Essence(d) && r == s
    decreases c, 2
  {
    var c0, d0 := ";" + TextOpt(o, c.next, r), ";" + TextOpt(o', d.next, s);
    var c1, d1 := VersionText(c.version, c0), VersionText(d.version, d0);
    var c2, d2 := RetryText(c.retry, c1), RetryText(d.retry, d1);
    var c3, d3 := TimeoutText(c.timeoutMs, c2), TimeoutText(d.timeoutMs, d2);
    TaskFieldMarks(c, c0);
    TaskFieldMarks(d, d0);
    Drop("T:", c.id + c3, "T:", d.id + d3);
    Split(c.id, c3, d.id, d3, {':', ';'});
    hide Text, TextOpt, Enumerates, TimeoutText, RetryText, VersionText;
    ReadTimeout(c.timeoutMs, c2, d.timeoutMs, d2);
    ReadRetry(c.retry, c1, d.retry, d1);
    ReadVersion(c.version, c0, d.version, d0);
    ReadNext(o, o', c.next, r, d.next, s);
  }

  lemma {:induction false} ReadFork(o: Order, o': Order, c: SCont, r: string, d: SCont, s: string)
    requires Enumerates(o) && Enumerates(o') && Clean(c) && Clean(d) && Ends(r) && Ends(s)
    requires c.SFork? && d.SFork? && Text(o, c, r) == Text(o', d, s)
    ensures Essence(c) == Essence(d) && r == s
    decreases c, 2
  {
    var c0 := if c.join.Some? then "J:" + Text(o, c.join.value, r) else r;
    var d0 := if d.join.Some? then "J:" + Text(o', d.join.value, s) else s;
    var c1, d1 := BranchesText(o, c.branches, "]" + c0), BranchesText(o', d.branches, "]" + d0);
    Drop("F:", c.id + ("[" + c1), "F:", d.id + ("[" + d1));
    Split(c.id, "[" + c1, d.id, "[" + d1, {'['});
    Drop("[", c1, "[", d1);
    ReadBranches(o, o', c.branches, "]" + c0, d.branches, "]" + d0);
    Drop("]", c0, "]", d0);
    if c.join.Some? && d.join.Some? {
      Drop("J:", Text(o, c.join.value, r), "J:", Text(o', d.join.value, s));
      Read(o, o', c.join.value, r, d.join.value, s);
    }
  }

  lemma {:induction false} ReadBranches(o: Order, o': Order, bs: seq<SCont>, r: string, cs: seq<SCont>, s: string)
    requires Enumerates(o) && Enumerates(o') && r != [] && r[0] == ']' && s != [] && s[0] == ']'
    requires (forall b :: b in bs ==> Clean(b)) && (forall b :: b in cs ==> Clean(b))
    requires BranchesText(o, bs, r) == BranchesText(o', cs, s)
    ensures EssenceSeq(bs) == EssenceSeq(cs) && r == s
    decreases bs, 4
  {
    hide Text, Essence, Clean, Enumerates;
    if bs != [] {
      TextStarts(o, bs[0], "," + BranchesText(o, bs[1..], r));
    }
    if cs != [] {
      TextStarts(o', cs[0], "," + BranchesText(o', cs[1..], s));
    }
    if bs != [] && cs != [] {
      var r1, s1 := BranchesText(o, bs[1..], r), BranchesText(o', cs[1..], s);
      Read(o, o', bs[0], "," + r1, cs[0], "," + s1);
      Drop(",", r1, ",", s1);
      ReadBranches(o, o', bs[1..], r, cs[1..], s);
    }
  }

  lemma {:induction false} ReadDelay(o: Order, o': Order, c: SCont, r: string, d: SCont, s: string)
    requires Enumerates(o) && Enumerates(o') && Clean(c) && Clean(d) && Ends(r) && Ends(s)
    requires c.SDelay? && d.SDelay? && Text(o, c, r) == Text(o', d, s)
    ensures Essence(c) == Essence(d) && r == s
    decreases c, 2
  {
    var c0, d0 := ";" + TextOpt(o, c.next, r), ";" + TextOpt(o', d.next, s);
    var c1, d1 := Digits(c.durationMs) + c0, Digits(d.durationMs) + d0;
    Drop("D:", c.id + (":" + c1), "D:", d.id + (":" + d1));
    Split(c.id, ":" + c1, d.id, ":" + d1, {':'});
    Drop(":", c1, ":", d1);
    SplitDigits(c.durationMs, c0, d.durationMs, d0);
    ReadNext(o, o', c.next, r, d.next, s);
  }

  lemma {:induction false} ReadSignal(o: Order, o': Order, c: SCont, r: string, d: SCont, s: string)
    requires Enumerates(o) && Enumerates(o') && Clean(c) && Clean(d) && Ends(r) && Ends(s)
    requires c.SAwaitSignal? && d.SAwaitSignal? && Text(o, c, r) == Text(o', d, s)
    ensures Essence(c) == Essence(d) && r == s
    decreases c, 2
  {
    var c0, d0 := ";" + TextOpt(o, c.next, r), ";" + TextOpt(o', d.next, s);
    var c1, d1 := TimeoutText(c.timeoutMs, c0), TimeoutText(d.timeoutMs, d0);
    Drop("S:", c.id + (":" + (c.signalName + c1)), "S:", d.id + (":" + (d.signalName + d1)));
    Split(c.id, ":" + (c.signalName + c1), d.id, ":" + (d.signalName + d1), {':'});
    Drop(":", c.signalName + c1, ":", d.signalName + d1);
    Split(c.signalName, c1, d.signalName, d1, {':', ';'});
    ReadTimeout(c.timeoutMs, c0, d.timeoutMs, d0);
    ReadNext(o, o', c.next, r, d.next, s);
  }

  lemma ReadOnMax(a: OnMax, r: string, b: OnMax, s: string)
    requires OnMaxText(a) + ("{" + r) == OnMaxText(b) + ("{" + s)
    ensures a == b && r == s
  {
    Split(OnMaxText(a), "{" + r, OnMaxText(b), "{" + s, {'{'});
    Drop("{", r, "{", s);
  }

  lemma {:induction false} ReadLoop(o: Order, o': Order, c: SCont, r: string, d: SCont, s: string)
    requires Enumerates(o) && Enumerates(o') && Clean(c) && Clean(d) && Ends(r) && Ends(s)
    requires c.SLoop? && d.SLoop? && Text(o, c, r) == Text(o', d, s)
    ensures Essence(c) == Essence(d) && r == s
    decreases c, 2
  {
    var c0, d0 := ";" + TextOpt(o, c.next, r), ";" + TextOpt(o', d.next, s);
    var c1, d1 := Text(o, c.body, "}" + c0), Text(o', d.body, "}" + d0);
    var c2, d2 := OnMaxText(c.onMax) + ("{" + c1), OnMaxText(d.onMax) + ("{" + d1);
    var c3, d3 := Digits(c.maxIterations) + (":" + c2), Digits(d.maxIterations) + (":" + d2);
    Drop("L:", c.id + (":" + c3), "L:", d.id + (":" + d3));
    Split(c.id, ":" + c3, d.id, ":" + d3, {':'});
    Drop(":", c3, ":", d3);
    hide Text, OnMaxText, Digits, Enumerates;
    SplitDigits(c.maxIterations, ":" + c2, d.maxIterations, ":" + d2);
    Drop(":", c2, ":", d2);
    ReadOnMax(c.onMax, c1, d.onMax, d1);
    Read(o, o', c.body, "}" + c0, d.body, "}" + d0);
    Drop("}", c0, "}", d0);
    ReadNext(o, o', c.next, r, d.next, s);
  }

  lemma {:induction false} ReadChild(o: Order, o': Order, c: SCont, r: string, d: SCont, s: string)
    requires Enumerates(o) && Enumerates(o') && Clean(c) && Clean(d) && Ends(r) && Ends(s)
    requires c.SChildWorkflow? && d.SChildWorkflow? && Text(o, c, r) == Text(o', d, s)
    ensures Essence(c) == Essence(d) && r == s
    decreases c, 2
  {
    var c0, d0 := ";" + TextOpt(o, c.next, r), ";" + TextOpt(o', d.next, s);
    var c1, d1 := Text(o, c.child, "}" + c0), Text(o', d.child, "}" + d0);
    Drop("CW:", c.id + ("{" + c1), "CW:", d.id + ("{" + d1));
    Split(c.id, "{" + c1, d.id, "{" + d1, {'{'});
    Drop("{", c1, "{", d1);
    Read(o, o', c.child, "}" + c0, d.child, "}" + d0);
    Drop("}", c0, "}", d0);
    ReadNext(o, o', c.next, r, d.next, s);
  }

  lemma {:induction false} ReadBranch(o: Order, o': Order, c: SCont, r: string, d: SCont, s: string)
    requires Enumerates(o) && Enumerates(o') && Clean(c) && Clean(d) && Ends(r) && Ends(s)
    requires c.SBranch? && d.SBranch? && Text(o, c, r) == Text(o', d, s)
    ensures Essence(c) == Essence(d) && r == s
    decreases c, 2
  {
    var ks, ls := SortedKeys(o, c.routes.Keys), SortedKeys(o', d.routes.Keys);
    var c0, d0 := ";" + TextOpt(o, c.next, r), ";" + TextOpt(o', d.next, s);
    var c1, d1 := DefaultText(o, c.default, c0), DefaultText(o', d.default, d0);
    var c2, d2 := RoutesText(o, c, ks, "}" + c1), RoutesText(o', d, ls, "}" + d1);
    Drop("B:", c.id + ("{" + c2), "B:", d.id + ("{" + d2));
    Split(c.id, "{" + c2, d.id, "{" + d2, {'{'});
    hide Text, RoutesText, DefaultText, TextOpt, Enumerates, Essence, Sort;
    Drop("{", c2, "{", d2);
    SortedKeysFacts(o, c.routes.Keys);
    SortedKeysFacts(o', d.routes.Keys);
    ReadRoutes(o, o', c, ks, "}" + c1, d, ls, "}" + d1);
    Drop("}", c1, "}", d1);
    ReadDefault(o, o', c.default, c0, d.default, d0);
    ReadNext(o, o', c.next, r, d.next, s);
    assert c.routes.Keys == d.routes.Keys;
    EssenceOfRoutes(c, d);
  }

  lemma EssenceOfRoutes(c: SCont, d: SCont)
    requires c.SBranch? && d.SBranch? && c.routes.Keys == d.routes.Keys
    requires forall k :: k in c.routes ==> Essence(c.routes[k]) == Essence(d.routes[k])
    requires c.id == d.id && EssenceOpt(c.default) == EssenceOpt(d.default) && EssenceOpt(c.next) == EssenceOpt(d.next)
    ensures Essence(c) == Essence(d)
  {
    assert EssenceRoutes(c) == EssenceRoutes(d) by {
      hide Essence;
    }
  }

  lemma {:induction false} ReadDefault(o: Order, o': Order, c: Option<SCont>, r: string, d: Option<SCont>, s: string)
    requires Enumerates(o) && Enumerates(o') && CleanOpt(c) && CleanOpt(d)
    requires r != [] && r[0] == ';' && s != [] && s[0] == ';'
    requires DefaultText(o, c, r) == DefaultText(o', d, s)
    ensures EssenceOpt(c) == EssenceOpt(d) && r == s
    decreases c, 4
  {
    if c.Some? && d.Some? {
      Drop("_=>", Text(o, c.value, r), "_=>", Text(o', d.value, s));
      Read(o, o', c.value, r, d.value, s);
    }
  }

  lemma {:induction false} ReadRoutes(
      o: Order, o': Order, c: SCont, ks: seq<string>, r: string, d: SCont, ls: seq<string>, s: string)
    requires Enumerates(o) && Enumerates(o') && c.SBranch? && d.SBranch? && Clean(c) && Clean(d)
    requires r != [] && r[0] == '}' && s != [] && s[0] == '}'
    requires (forall k :: k in ks ==> k in c.routes) && (forall k :: k in ls ==> k in d.routes)
    requires RoutesText(o, c, ks, r) == RoutesText(o', d, ls, s)
    ensures ks == ls && r == s && forall k :: k in ks ==> Essence(c.routes[k]) == Essence(d.routes[k])
    decreases c, 1, |ks|
  {
    if ks != [] && ls != [] {
      var r1, s1 := RoutesText(o, c, ks[1..], r), RoutesText(o', d, ls[1..], s);
      var r2, s2 := Text(o, c.routes[ks[0]], "," + r1), Text(o', d.routes[ls[0]], "," + s1);
      Split(ks[0], "=>" + r2, ls[0], "=>" + s2, {'=', '}'});
      Drop("=>", r2, "=>", s2);
      Read(o, o', c.routes[ks[0]], "," + r1, d.routes[ls[0]], "," + s1);
      Drop(",", r1, ",", s1);
      ReadRoutes(o, o', c, ks[1..], r, d, ls[1..], s);
      assert ks == [ks[0]] + ks[1..] && ls == [ls[0]] + ls[1..];
    } else {
      RoutesStart(o, c, ks, r);
      RoutesStart(o', d, ls, s);
    }
  }

  /** The text of a non-empty route list does not start with the closing brace. */
  lemma RoutesStart(o: Order, c: SCont, ks: seq<string>, r: string)
    requires c.SBranch? && Clean(c) && (forall k :: k in ks ==> k in c.routes) && r != [] && r[0] == '}'
    ensures var t := RoutesText(o, c, ks, r); t != [] && (t[0] == '}' <==> ks == [])
  {
    if ks != [] {
      var t := RoutesText(o, c, ks, r);
      assert Avoids(ks[0], {'=', '}'});
      if ks[0] == [] {
        assert t[0] == '=';
      } else {
        assert t[0] == ks[0][0];
      }
    }
  }
}
