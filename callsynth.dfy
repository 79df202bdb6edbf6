/** How `Script::notify` (src/script.rs:43-56) turns a hook name and its
    arguments into source text for the interpreter: each argument is bound
    in a fresh scope under the placeholder name "__argument<i>", and the
    call reads `hook(__argument0,__argument1,...);`. */
module CallSynthesis {
  import opened Discord

  /** An argument handed to a hook. Every handler passes one message
      handle. */
  datatype Arg = NeoMessage(msg: Message)

  /** The interpreter's variable scope, in push order. */
  type Scope = seq<(string, Arg)>

  /** `format!("{}", n)` for a non-negative integer. */
  function DecimalString(n: nat): (r: string)
    ensures |r| >= 1
    ensures forall k :: 0 <= k < |r| ==> '0' <= r[k] <= '9'
  {
    if n < 10 then [DigitChar(n)] else DecimalString(n / 10) + [DigitChar(n % 10)]
  }

  function DigitChar(d: nat): (c: char)
    requires d < 10
    ensures '0' <= c <= '9'
  {
    ('0' as int + d) as char
  }

  /** Reads a run of decimal digits back; the inverse of `DecimalString`. */
  function ParseDecimal(s: string): nat {
    if s == [] then 0
    else ParseDecimal(s[..|s| - 1]) * 10 + DigitValue(s[|s| - 1])
  }

  function DigitValue(c: char): nat {
    if '0' <= c <= '9' then (c as int - '0' as int) else 0
  }

  lemma {:induction false} DecimalRoundTrip(n: nat)
    ensures ParseDecimal(DecimalString(n)) == n
  {
    var s := DecimalString(n);
    if n < 10 {
      assert s[..|s| - 1] == [];
    } else {
      assert s[..|s| - 1] == DecimalString(n / 10);
      DecimalRoundTrip(n / 10);
    }
  }

  const ArgPrefix: string := "__argument"

  /** The placeholder name of the argument at position `i`. */
  function ArgName(i: nat): string {
    ArgPrefix + DecimalString(i)
  }

  /** Distinct positions get distinct names, so no argument shadows
      another in the scope. */
  lemma ArgNameInjective(i: nat, j: nat)
    ensures ArgName(i) == ArgName(j) ==> i == j
  {
    if ArgName(i) == ArgName(j) {
      assert DecimalString(i) == ArgName(i)[|ArgPrefix|..];
      assert DecimalString(j) == ArgName(j)[|ArgPrefix|..];
      DecimalRoundTrip(i);
      DecimalRoundTrip(j);
    }
  }

  /** A placeholder name holds no comma, so a comma-joined list of names
      splits back into the names. */
  lemma ArgNameHasNoComma(i: nat)
    ensures ',' !in ArgName(i)
  {
    var d, a := DecimalString(i), ArgName(i);
    forall k | 0 <= k < |a| ensures a[k] != ',' {
      if k >= |ArgPrefix| { assert a[k] == d[k - |ArgPrefix|]; }
    }
  }

  /** The first `n` placeholder names are pairwise distinct and free of
      commas. */
  lemma PlaceholdersWellFormed(n: nat)
    ensures forall i, j :: 0 <= i < j < n ==> ArgName(i) != ArgName(j)
    ensures forall i :: 0 <= i < n ==> ',' !in ArgName(i)
  {
    forall i, j | 0 <= i < j < n ensures ArgName(i) != ArgName(j) {
      ArgNameInjective(i, j);
    }
    forall i | 0 <= i < n ensures ',' !in ArgName(i) {
      ArgNameHasNoComma(i);
    }
  }

  /** The names of an `n`-argument call, in argument order: no two alike,
      and none holding the separator they are joined with. */
  function ArgNames(n: nat): (r: seq<string>)
    ensures |r| == n
    ensures forall i :: 0 <= i < n ==> r[i] == ArgName(i)
    ensures forall i, j :: 0 <= i < j < n ==> r[i] != r[j]
    ensures forall i :: 0 <= i < n ==> ',' !in r[i]
  {
    PlaceholdersWellFormed(n);
    seq(n, i requires 0 <= i => ArgName(i))
  }

  /** `[String]::join`. */
  function Join(xs: seq<string>, sep: char): string {
    if xs == [] then ""
    else if |xs| == 1 then xs[0]
    else xs[0] + [sep] + Join(xs[1..], sep)
  }

  /** `str::split` on one character; the inverse of `Join` on non-empty
      lists of separator-free parts. */
  function Split(s: string, sep: char): (r: seq<string>)
    ensures |r| >= 1
  {
    if s == [] then [""]
    else
      var rest := Split(s[1..], sep);
      if s[0] == sep then [""] + rest else [[s[0]] + rest[0]] + rest[1..]
  }

  lemma {:induction false} SplitPlain(x: string, sep: char)
    requires sep !in x
    ensures Split(x, sep) == [x]
  {
    if x != [] {
      SplitPlain(x[1..], sep);
      assert [x[0]] + x[1..] == x;
    }
  }

  lemma {:induction false} SplitAtSeparator(x: string, sep: char, t: string)
    requires sep !in x
    ensures Split(x + [sep] + t, sep) == [x] + Split(t, sep)
  {
    if x == [] {
      assert x + [sep] + t == [sep] + t;
      assert ([sep] + t)[1..] == t;
    } else {
      var s := x + [sep] + t;
      assert s[1..] == x[1..] + [sep] + t;
      SplitAtSeparator(x[1..], sep, t);
      assert [x[0]] + x[1..] == x;
    }
  }

  lemma {:induction false} SplitJoin(xs: seq<string>, sep: char)
    requires |xs| >= 1
    requires forall i :: 0 <= i < |xs| ==> sep !in xs[i]
    ensures Split(Join(xs, sep), sep) == xs
  {
    if |xs| == 1 {
      SplitPlain(xs[0], sep);
    } else {
      SplitAtSeparator(xs[0], sep, Join(xs[1..], sep));
      SplitJoin(xs[1..], sep);
    }
  }

  /** The scope a call with `args` is evaluated in: every argument bound,
      in order, under its placeholder name, and no binding shadowing
      another. */
  function ScopeOf(args: seq<Arg>): (scope: Scope)
    ensures |scope| == |args|
    ensures forall i :: 0 <= i < |args| ==> scope[i] == (ArgName(i), args[i])
    ensures forall i, j :: 0 <= i < j < |scope| ==> scope[i].0 != scope[j].0
  {
    PlaceholdersWellFormed(|args|);
    seq(|args|, i requires 0 <= i < |args| => (ArgName(i), args[i]))
  }

  /** The synthesized call text. */
  function CallText(hook: string, argc: nat): string {
    hook + "(" + Join(ArgNames(argc), ',') + ");"
  }

  /** The argument list of a call splits back into the placeholder names,
      in argument order. */
  lemma CallArgumentsRecoverable(argc: nat)
    requires argc >= 1
    ensures Split(Join(ArgNames(argc), ','), ',') == ArgNames(argc)
  {
    SplitJoin(ArgNames(argc), ',');
  }

  /** Builds the scope and the call text as the source does: push each
      argument under the next counter value, then join the scope's names. */
  method SynthesizeCall(hook: string, args: seq<Arg>) returns (scope: Scope, call: string)
    ensures |scope| == |args|
    ensures forall i :: 0 <= i < |args| ==> scope[i] == (ArgName(i), args[i])
    ensures call == hook + "(" + Join(ArgNames(|args|), ',') + ");"
  {
    scope := [];
    var counter := 0;
    for n := 0 to |args|
      invariant counter == n == |scope|
      invariant forall i :: 0 <= i < n ==> scope[i] == (ArgName(i), args[i])
    {
      var argName := ArgPrefix + DecimalString(counter);
      scope := scope + [(argName, args[n])];
      counter := counter + 1;
    }
    var names := seq(|scope|, i requires 0 <= i < |scope| => scope[i].0);
    assert names == ArgNames(|args|);
    call := hook + "(" + Join(names, ',') + ");";
  }
}
