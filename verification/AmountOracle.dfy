/**
 Layer 0 of the render gate: every printed amount of a fixture must be the printed form
 of an integer declared by an `amount` directive, and nothing that looks like an amount
 may go undeclared.
 */
module AmountOracle {
  import opened Money
  import opened PythonText
  import opened Sorting
  import opened Strings

  /** A scalar of the fixture, as the gate tells them apart. */
  datatype Scalar = Text(s: string) | Integer(n: int) | Other

  datatype Failure =
    | ExpectationRot(path: string)
    | FixtureFormat(path: string)
    | IntegerDisagrees(path: string)
    | MachineForm(path: string, value: string)
    | UndeclaredAmount(path: string, value: string)

  /** `$` also matches before a newline at the very end. */
  predicate MatchesPrinted(s: string) {
    PrintedMoney(s) || (s != "" && s[|s| - 1] == '\n' && PrintedMoney(s[..|s| - 1]))
  }

  /** An optional minus, digits, a point, two digits. */
  predicate MachineMoney(s: string) {
    var d := if s != "" && s[0] == '-' then s[1..] else s;
    |d| >= 4 && d[|d| - 3] == '.' && IsNumeral(d[..|d| - 3]) && IsNumeral(d[|d| - 2..])
  }

  predicate MatchesMachine(s: string) {
    MachineMoney(s) || (s != "" && s[|s| - 1] == '\n' && MachineMoney(s[..|s| - 1]))
  }

  function LessOrEqual(a: string, b: string): bool { a == b || Less(a, b) }

  function IntLessOrEqual(a: int, b: int): bool { a <= b }

  lemma StringsAreOrdered()
    ensures TotalOrder(LessOrEqual)
  {
    forall a, b ensures LessOrEqual(a, b) || LessOrEqual(b, a)
    {
      LessIsTotal(a, b);
    }
    forall a, b | LessOrEqual(a, b) && LessOrEqual(b, a) ensures a == b {
      LessIsTotal(a, b);
    }
    forall a, b, c | LessOrEqual(a, b) && LessOrEqual(b, c) ensures LessOrEqual(a, c) {
      if a != b && b != c { LessIsTransitive(a, b, c); }
    }
  }

  // ---------------------------------------------------------------------------
  // Reading the fixture and the directives by path
  // ---------------------------------------------------------------------------

  /** The values of the pairs with the given key, in order: a Python setdefault/append loop. */
  function ValuesAt<T>(pairs: seq<(string, T)>, path: string): seq<T> {
    if pairs == [] then []
    else
      var last := pairs[|pairs| - 1];
      ValuesAt(pairs[..|pairs| - 1], path) + if last.0 == path then [last.1] else []
  }

  ghost predicate Groups<T(!new)>(byPath: map<string, seq<T>>, pairs: seq<(string, T)>) {
    forall p :: (p in byPath <==> ValuesAt(pairs, p) != []) && (p in byPath ==> byPath[p] == ValuesAt(pairs, p))
  }

  lemma GroupStep<T(!new)>(byPath: map<string, seq<T>>, pairs: seq<(string, T)>, path: string, value: T)
    requires Groups(byPath, pairs)
    ensures Groups(byPath[path := (if path in byPath then byPath[path] else []) + [value]], pairs + [(path, value)])
  {
    assert (pairs + [(path, value)])[..|pairs|] == pairs;
  }

  ghost predicate Distinct(order: seq<string>) {
    forall i, j :: 0 <= i < j < |order| ==> order[i] != order[j]
  }

  /** The dictionary, and its keys in insertion order. */
  method GroupByPath<T(!new)>(pairs: seq<(string, T)>) returns (byPath: map<string, seq<T>>, order: seq<string>)
    ensures Groups(byPath, pairs)
    ensures Distinct(order) && forall p :: p in order <==> p in byPath
  {
    byPath, order := map[], [];
    for i := 0 to |pairs|
      invariant Groups(byPath, pairs[..i])
      invariant Distinct(order) && forall p :: p in order <==> p in byPath
    {
      var (path, value) := pairs[i];
      GroupStep(byPath, pairs[..i], path, value);
      assert pairs[..i + 1] == pairs[..i] + [(path, value)];
      if path !in byPath {
        order := order + [path];
        byPath := byPath[path := [value]];
      } else {
        byPath := byPath[path := byPath[path] + [value]];
      }
    }
    assert pairs[..|pairs|] == pairs;
  }

  /** The strings among scalars that are not blank. */
  function Shown(values: seq<Scalar>): seq<string> {
    if values == [] then []
    else
      var last := values[|values| - 1];
      Shown(values[..|values| - 1]) + if last.Text? && Stripped(last.s) != "" then [last.s] else []
  }

  function Integers(values: seq<Scalar>): seq<int> {
    if values == [] then []
    else
      var last := values[|values| - 1];
      Integers(values[..|values| - 1]) + if last.Integer? then [last.n] else []
  }

  /** How often a value stands at a path is how often the pair is among the pairs. */
  lemma {:induction false} ValuesCounted<T>(pairs: seq<(string, T)>, path: string, v: T)
    ensures multiset(ValuesAt(pairs, path))[v] == multiset(pairs)[(path, v)]
  {
    if pairs != [] {
      var pre, last := pairs[..|pairs| - 1], pairs[|pairs| - 1];
      ValuesCounted(pre, path, v);
      assert pairs == pre + [last];
    }
  }

  predicate Blank(s: string) { forall i :: 0 <= i < |s| ==> IsSpace(s[i]) }

  /** A string counts as often as it is there, unless it is blank. */
  lemma {:induction false} StringsCounted(values: seq<Scalar>, s: string)
    ensures multiset(Shown(values))[s] == if Blank(s) then 0 else multiset(values)[Text(s)]
  {
    if values != [] {
      var pre, last := values[..|values| - 1], values[|values| - 1];
      StringsCounted(pre, s);
      BlankIff(s);
      assert values == pre + [last];
      assert multiset(values)[Text(s)] == multiset(pre)[Text(s)] + if last == Text(s) then 1 else 0;
    }
  }

  /** Integers count as often as they are there. */
  lemma {:induction false} IntegersCounted(values: seq<Scalar>, n: int)
    ensures multiset(Integers(values))[n] == multiset(values)[Integer(n)]
  {
    if values != [] {
      var pre, last := values[..|values| - 1], values[|values| - 1];
      IntegersCounted(pre, n);
      assert values == pre + [last];
    }
  }

  function AllPrinted(tiyn: seq<int>): seq<string> {
    if tiyn == [] then [] else AllPrinted(tiyn[..|tiyn| - 1]) + [Printed(tiyn[|tiyn| - 1])]
  }

  function Texts(strings: seq<string>): seq<Scalar> {
    seq(|strings|, i requires 0 <= i < |strings| => Text(strings[i]))
  }

  lemma {:induction false} TextsHaveNoIntegers(strings: seq<string>)
    ensures Integers(Texts(strings)) == []
  {
    if strings != [] {
      var n := |strings| - 1;
      assert Texts(strings)[..n] == Texts(strings[..n]);
      TextsHaveNoIntegers(strings[..n]);
    }
  }

  // ---------------------------------------------------------------------------
  // The check
  // ---------------------------------------------------------------------------

  /** The fixture shows exactly the declared amounts at this path. */
  predicate Agrees(scalars: seq<(string, Scalar)>, amounts: seq<(string, int)>, path: string) {
    multiset(AllPrinted(ValuesAt(amounts, path))) == multiset(Shown(ValuesAt(scalars, path)))
  }

  /**
   The integers the sibling check sees at `path`.  A declared path whose strings agreed has
   been overwritten by its printed forms by then, so integers beside them go unseen.
   */
  function IntegersSeen(scalars: seq<(string, Scalar)>, amounts: seq<(string, int)>, path: string): seq<int> {
    if ValuesAt(amounts, path) != [] && ValuesAt(scalars, path) != [] && Agrees(scalars, amounts, path) then []
    else Integers(ValuesAt(scalars, path))
  }

  /** What counts as a failure, path by path and scalar by scalar. */
  predicate IsFailure(scalars: seq<(string, Scalar)>, amounts: seq<(string, int)>, f: Failure) {
    match f
    case ExpectationRot(p) =>
      ValuesAt(amounts, p) != [] && ValuesAt(scalars, p) == []
    case FixtureFormat(p) =>
      ValuesAt(amounts, p) != [] && ValuesAt(scalars, p) != [] && !Agrees(scalars, amounts, p)
    case IntegerDisagrees(p) =>
      ValuesAt(amounts, p) != [] &&
      var theirs := IntegersSeen(scalars, amounts, p + "_tiyn");
      theirs != [] && multiset(theirs) != multiset(ValuesAt(amounts, p))
    case MachineForm(p, v) =>
      (p, Text(v)) in scalars && MatchesMachine(v)
    case UndeclaredAmount(p, v) =>
      (p, Text(v)) in scalars && !MatchesMachine(v) && MatchesPrinted(v) && ValuesAt(amounts, p) == []
  }

  method FormatAll(tiyn: seq<int>) returns (strings: seq<string>)
    ensures strings == AllPrinted(tiyn)
  {
    strings := [];
    for i := 0 to |tiyn|
      invariant strings == AllPrinted(tiyn[..i])
    {
      assert tiyn[..i + 1][..i] == tiyn[..i];
      var s := Format(tiyn[i]);
      strings := strings + [s];
    }
    assert tiyn[..|tiyn|] == tiyn;
  }

  /** The first loop's comparison at one path; `want` replaces the values there if it succeeds. */
  method ComparePath(scalars: seq<(string, Scalar)>, amounts: seq<(string, int)>, path: string,
                     tiyn: seq<int>, values: seq<Scalar>)
    returns (agrees: bool, want: seq<string>)
    requires tiyn == ValuesAt(amounts, path) && values == ValuesAt(scalars, path)
    ensures agrees == Agrees(scalars, amounts, path)
  {
    want := FormatAll(tiyn);
    var got := Shown(values);
    StringsAreOrdered();
    SortedEqualIffSameMultiset(want, got, LessOrEqual);
    want := Sort(want, LessOrEqual);
    agrees := want == Sort(got, LessOrEqual);
  }

  /** by_path at p, after the first loop has overwritten the paths in `done` that agreed. */
  ghost predicate OverwrittenAt(byPath: map<string, seq<Scalar>>, scalars: seq<(string, Scalar)>,
                                amounts: seq<(string, int)>, done: seq<string>, p: string)
  {
    && (p in byPath <==> ValuesAt(scalars, p) != [])
    && (p in byPath ==>
         if p in done && Agrees(scalars, amounts, p) then Integers(byPath[p]) == []
         else byPath[p] == ValuesAt(scalars, p))
  }

  ghost predicate Overwritten(byPath: map<string, seq<Scalar>>, scalars: seq<(string, Scalar)>,
                              amounts: seq<(string, int)>, done: seq<string>)
  {
    forall p :: OverwrittenAt(byPath, scalars, amounts, done, p)
  }

  lemma OverwriteStep(byPath: map<string, seq<Scalar>>, scalars: seq<(string, Scalar)>, amounts: seq<(string, int)>,
                      done: seq<string>, path: string, want: seq<string>)
    requires Overwritten(byPath, scalars, amounts, done)
    ensures var now := if path in byPath && Agrees(scalars, amounts, path) then byPath[path := Texts(want)] else byPath;
            Overwritten(now, scalars, amounts, done + [path])
  {
    var now := if path in byPath && Agrees(scalars, amounts, path) then byPath[path := Texts(want)] else byPath;
    TextsHaveNoIntegers(want);
    forall p ensures OverwrittenAt(now, scalars, amounts, done + [path], p) {
      assert OverwrittenAt(byPath, scalars, amounts, done, p);
      assert p in done + [path] <==> p in done || p == path;
    }
  }

  function FormatFailureAt(scalars: seq<(string, Scalar)>, amounts: seq<(string, int)>, p: string): seq<Failure> {
    if ValuesAt(scalars, p) == [] then [ExpectationRot(p)]
    else if !Agrees(scalars, amounts, p) then [FixtureFormat(p)]
    else []
  }

  function SiblingFailureAt(scalars: seq<(string, Scalar)>, amounts: seq<(string, int)>, p: string): seq<Failure> {
    var theirs := IntegersSeen(scalars, amounts, p + "_tiyn");
    if theirs != [] && multiset(theirs) != multiset(ValuesAt(amounts, p)) then [IntegerDisagrees(p)] else []
  }

  function ScalarFailureAt(amounts: seq<(string, int)>, p: string, v: Scalar): seq<Failure> {
    if !v.Text? then []
    else if MatchesMachine(v.s) then [MachineForm(p, v.s)]
    else if MatchesPrinted(v.s) && ValuesAt(amounts, p) == [] then [UndeclaredAmount(p, v.s)]
    else []
  }

  /** The first loop's failures over the declared paths in `order`. */
  function FormatFailures(scalars: seq<(string, Scalar)>, amounts: seq<(string, int)>, order: seq<string>)
    : seq<Failure>
  {
    if order == [] then []
    else FormatFailures(scalars, amounts, order[..|order| - 1]) + FormatFailureAt(scalars, amounts, order[|order| - 1])
  }

  /** The second loop's. */
  function SiblingFailures(scalars: seq<(string, Scalar)>, amounts: seq<(string, int)>, order: seq<string>)
    : seq<Failure>
  {
    if order == [] then []
    else
      var n := |order| - 1;
      SiblingFailures(scalars, amounts, order[..n]) + SiblingFailureAt(scalars, amounts, order[n])
  }

  /** The third loop's, scalar by scalar. */
  function ScalarFailures(scalars: seq<(string, Scalar)>, amounts: seq<(string, int)>): seq<Failure> {
    if scalars == [] then []
    else
      var (p, v) := scalars[|scalars| - 1];
      ScalarFailures(scalars[..|scalars| - 1], amounts) + ScalarFailureAt(amounts, p, v)
  }

  lemma FormatSnoc(scalars: seq<(string, Scalar)>, amounts: seq<(string, int)>, order: seq<string>, p: string)
    ensures FormatFailures(scalars, amounts, order + [p])
         == FormatFailures(scalars, amounts, order) + FormatFailureAt(scalars, amounts, p)
  {
    assert (order + [p])[..|order|] == order;
  }

  /** One round of the first loop. */
  method CheckDeclaredPath(scalars: seq<(string, Scalar)>, amounts: seq<(string, int)>, path: string, tiyn: seq<int>,
                           values: map<string, seq<Scalar>>, ghost done: seq<string>)
    returns (failures: seq<Failure>, byPath: map<string, seq<Scalar>>)
    requires tiyn == ValuesAt(amounts, path) && Overwritten(values, scalars, amounts, done) && path !in done
    ensures failures == FormatFailureAt(scalars, amounts, path)
    ensures Overwritten(byPath, scalars, amounts, done + [path])
  {
    assert OverwrittenAt(values, scalars, amounts, done, path);
    if path !in values {
      OverwriteStep(values, scalars, amounts, done, path, []);
      return [ExpectationRot(path)], values;
    }
    var agrees, want := ComparePath(scalars, amounts, path, tiyn, values[path]);
    OverwriteStep(values, scalars, amounts, done, path, want);
    if agrees {
      return [], values[path := Texts(want)];
    } else {
      return [FixtureFormat(path)], values;
    }
  }

  /** The first loop: each declared path against the fixture's strings there. */
  method CheckDeclared(scalars: seq<(string, Scalar)>, amounts: seq<(string, int)>,
                       declared: map<string, seq<int>>, order: seq<string>, values: map<string, seq<Scalar>>)
    returns (failures: seq<Failure>, byPath: map<string, seq<Scalar>>)
    requires Groups(declared, amounts) && Groups(values, scalars)
    requires Distinct(order) && forall p :: p in order <==> p in declared
    ensures failures == FormatFailures(scalars, amounts, order)
    ensures Overwritten(byPath, scalars, amounts, order)
  {
    failures, byPath := [], values;
    for k := 0 to |order|
      invariant Overwritten(byPath, scalars, amounts, order[..k])
      invariant failures == FormatFailures(scalars, amounts, order[..k])
    {
      var path := order[k];
      assert order[..k + 1] == order[..k] + [path];
      FormatSnoc(scalars, amounts, order[..k], path);
      var failed;
      failed, byPath := CheckDeclaredPath(scalars, amounts, path, declared[path], byPath, order[..k]);
      failures := failures + failed;
    }
    assert order[..|order|] == order;
  }

  /** The second loop's comparison at one path. */
  method CompareSibling(scalars: seq<(string, Scalar)>, amounts: seq<(string, int)>, order: seq<string>,
                        path: string, tiyn: seq<int>, byPath: map<string, seq<Scalar>>) returns (disagrees: bool)
    requires tiyn == ValuesAt(amounts, path) && Overwritten(byPath, scalars, amounts, order)
    requires forall p :: p in order <==> ValuesAt(amounts, p) != []
    ensures var theirs := IntegersSeen(scalars, amounts, path + "_tiyn");
            disagrees == (theirs != [] && multiset(theirs) != multiset(tiyn))
  {
    var sibling := path + "_tiyn";
    var theirs := Integers(if sibling in byPath then byPath[sibling] else []);
    assert OverwrittenAt(byPath, scalars, amounts, order, sibling);
    SortedEqualIffSameMultiset(tiyn, theirs, IntLessOrEqual);
    disagrees := theirs != [] && Sort(tiyn, IntLessOrEqual) != Sort(theirs, IntLessOrEqual);
  }

  /** The second loop: a declared amount against an integer field of the same name plus `_tiyn`. */
  method CheckSiblings(scalars: seq<(string, Scalar)>, amounts: seq<(string, int)>,
                       declared: map<string, seq<int>>, order: seq<string>, byPath: map<string, seq<Scalar>>)
    returns (failures: seq<Failure>)
    requires Groups(declared, amounts) && Overwritten(byPath, scalars, amounts, order)
    requires forall p :: p in order <==> p in declared
    ensures failures == SiblingFailures(scalars, amounts, order)
  {
    failures := [];
    for k := 0 to |order|
      invariant failures == SiblingFailures(scalars, amounts, order[..k])
    {
      var path := order[k];
      assert order[..k + 1][..k] == order[..k];
      var disagrees := CompareSibling(scalars, amounts, order, path, declared[path], byPath);
      if disagrees {
        failures := failures + [IntegerDisagrees(path)];
      }
    }
    assert order[..|order|] == order;
  }

  /** The third loop: machine forms and undeclared amounts among all scalars. */
  method CheckUndeclared(scalars: seq<(string, Scalar)>, amounts: seq<(string, int)>, declared: map<string, seq<int>>)
    returns (failures: seq<Failure>)
    requires Groups(declared, amounts)
    ensures failures == ScalarFailures(scalars, amounts)
  {
    failures := [];
    for k := 0 to |scalars|
      invariant failures == ScalarFailures(scalars[..k], amounts)
    {
      var (path, value) := scalars[k];
      assert scalars[..k + 1][..k] == scalars[..k];
      if !value.Text? { continue; }
      if MatchesMachine(value.s) {
        failures := failures + [MachineForm(path, value.s)];
      } else if MatchesPrinted(value.s) && path !in declared {
        failures := failures + [UndeclaredAmount(path, value.s)];
      }
    }
    assert scalars[..|scalars|] == scalars;
  }

  /** Membership in the failures along a list of paths, one more path at a time. */
  lemma AlongOneMore(f: Failure, before: seq<Failure>, here: seq<Failure>, paths: seq<string>, path: string, due: bool)
    requires f in before <==> f.path in paths && due
    requires f in here ==> f.path == path
    requires f.path == path ==> (f in here <==> due)
    ensures f in before + here <==> f.path in paths + [path] && due
  {
  }

  lemma {:induction false} FormatFailuresAre(scalars: seq<(string, Scalar)>, amounts: seq<(string, int)>,
                                             order: seq<string>, f: Failure)
    ensures f in FormatFailures(scalars, amounts, order) <==>
            f.path in order && f in FormatFailureAt(scalars, amounts, f.path)
  {
    if order != [] {
      var n := |order| - 1;
      FormatFailuresAre(scalars, amounts, order[..n], f);
      assert order == order[..n] + [order[n]];
      FormatKindAt(scalars, amounts, order[n], f);
      AlongOneMore(f, FormatFailures(scalars, amounts, order[..n]), FormatFailureAt(scalars, amounts, order[n]),
                   order[..n], order[n], f in FormatFailureAt(scalars, amounts, f.path));
    }
  }

  lemma FormatKindAt(scalars: seq<(string, Scalar)>, amounts: seq<(string, int)>, p: string, f: Failure)
    ensures f in FormatFailureAt(scalars, amounts, p) ==> f.path == p
  {
  }

  lemma {:induction false} SiblingFailuresAre(scalars: seq<(string, Scalar)>, amounts: seq<(string, int)>,
                                              order: seq<string>, f: Failure)
    ensures f in SiblingFailures(scalars, amounts, order) <==>
            f.path in order && f in SiblingFailureAt(scalars, amounts, f.path)
  {
    if order != [] {
      var n := |order| - 1;
      SiblingFailuresAre(scalars, amounts, order[..n], f);
      assert order == order[..n] + [order[n]];
      SiblingKindAt(scalars, amounts, order[n], f);
      AlongOneMore(f, SiblingFailures(scalars, amounts, order[..n]), SiblingFailureAt(scalars, amounts, order[n]),
                   order[..n], order[n], f in SiblingFailureAt(scalars, amounts, f.path));
    }
  }

  lemma SiblingKindAt(scalars: seq<(string, Scalar)>, amounts: seq<(string, int)>, p: string, f: Failure)
    ensures f in SiblingFailureAt(scalars, amounts, p) ==> f.path == p
  {
  }

  /** The scalar a failure of the third loop is about. */
  function Culprit(f: Failure): (string, Scalar) {
    if f.MachineForm? || f.UndeclaredAmount? then (f.path, Text(f.value)) else (f.path, Other)
  }

  lemma {:induction false} ScalarFailuresAre(scalars: seq<(string, Scalar)>, amounts: seq<(string, int)>, f: Failure)
    ensures f in ScalarFailures(scalars, amounts) <==>
            Culprit(f) in scalars && f in ScalarFailureAt(amounts, f.path, Culprit(f).1)
  {
    if scalars != [] {
      var n := |scalars| - 1;
      var (p, v) := scalars[n];
      var before, here := ScalarFailures(scalars[..n], amounts), ScalarFailureAt(amounts, p, v);
      ScalarFailuresAre(scalars[..n], amounts, f);
      assert f in before + here <==> f in before || f in here;
      assert f in here ==> Culprit(f) == (p, v);
      assert Culprit(f) in scalars <==> Culprit(f) in scalars[..n] || Culprit(f) == scalars[n];
    }
  }

  lemma FormatKind(scalars: seq<(string, Scalar)>, amounts: seq<(string, int)>, f: Failure)
    ensures ValuesAt(amounts, f.path) != [] && f in FormatFailureAt(scalars, amounts, f.path) <==>
            (f.ExpectationRot? || f.FixtureFormat?) && IsFailure(scalars, amounts, f)
  {
  }

  lemma SiblingKind(scalars: seq<(string, Scalar)>, amounts: seq<(string, int)>, f: Failure)
    ensures ValuesAt(amounts, f.path) != [] && f in SiblingFailureAt(scalars, amounts, f.path) <==>
            f.IntegerDisagrees? && IsFailure(scalars, amounts, f)
  {
  }

  lemma ScalarKind(scalars: seq<(string, Scalar)>, amounts: seq<(string, int)>, f: Failure)
    ensures Culprit(f) in scalars && f in ScalarFailureAt(amounts, f.path, Culprit(f).1) <==>
            (f.MachineForm? || f.UndeclaredAmount?) && IsFailure(scalars, amounts, f)
  {
  }

  lemma InThree<T>(x: T, a: seq<T>, b: seq<T>, c: seq<T>)
    ensures x in a + b + c <==> x in a || x in b || x in c
  {
  }

  lemma AllFailures(scalars: seq<(string, Scalar)>, amounts: seq<(string, int)>, order: seq<string>, f: Failure)
    requires forall p :: p in order <==> ValuesAt(amounts, p) != []
    ensures f in FormatFailures(scalars, amounts, order) + SiblingFailures(scalars, amounts, order) +
                 ScalarFailures(scalars, amounts)
            <==> IsFailure(scalars, amounts, f)
  {
    InThree(f, FormatFailures(scalars, amounts, order), SiblingFailures(scalars, amounts, order),
            ScalarFailures(scalars, amounts));
    FormatFailuresAre(scalars, amounts, order, f);
    SiblingFailuresAre(scalars, amounts, order, f);
    ScalarFailuresAre(scalars, amounts, f);
    FormatKind(scalars, amounts, f);
    SiblingKind(scalars, amounts, f);
    ScalarKind(scalars, amounts, f);
  }

  /** check_amounts(): exactly the failures there are, each kind in its own loop. */
  method CheckAmounts(scalars: seq<(string, Scalar)>, amounts: seq<(string, int)>) returns (failures: seq<Failure>)
    ensures forall f :: f in failures <==> IsFailure(scalars, amounts, f)
  {
    var declared, order := GroupByPath(amounts);
    var values, _ := GroupByPath(scalars);
    var a, byPath := CheckDeclared(scalars, amounts, declared, order, values);
    var b := CheckSiblings(scalars, amounts, declared, order, byPath);
    var c := CheckUndeclared(scalars, amounts, declared);
    failures := a + b + c;
    forall f ensures f in failures <==> IsFailure(scalars, amounts, f) {
      AllFailures(scalars, amounts, order, f);
    }
  }

  // ---------------------------------------------------------------------------
  // What a silent check means
  // ---------------------------------------------------------------------------

  /** Printing keeps amounts apart, so it keeps count of them. */
  lemma {:induction false} PrintingKeepsCount(tiyn: seq<int>, t: int)
    ensures multiset(AllPrinted(tiyn))[Printed(t)] == multiset(tiyn)[t]
  {
    if tiyn != [] {
      var n := |tiyn| - 1;
      PrintingKeepsCount(tiyn[..n], t);
      assert tiyn == tiyn[..n] + [tiyn[n]];
      if Printed(tiyn[n]) == Printed(t) {
        PrintedInjective(tiyn[n], t);
      }
    }
  }

  lemma {:induction false} PrintedOnes(tiyn: seq<int>, s: string) returns (t: int)
    requires s in AllPrinted(tiyn)
    ensures t in tiyn && s == Printed(t)
  {
    var n := |tiyn| - 1;
    if s == Printed(tiyn[n]) {
      t := tiyn[n];
    } else {
      t := PrintedOnes(tiyn[..n], s);
    }
  }

  /** What the sibling check is for: the integers beside a declared path are not the declared ones. */
  predicate SiblingWrong(scalars: seq<(string, Scalar)>, amounts: seq<(string, int)>, p: string) {
    var theirs := Integers(ValuesAt(scalars, p + "_tiyn"));
    ValuesAt(amounts, p) != [] && theirs != [] && multiset(theirs) != multiset(ValuesAt(amounts, p))
  }

  /** The sibling path is declared itself and its strings are right, so the first loop overwrote it. */
  predicate SiblingHidden(scalars: seq<(string, Scalar)>, amounts: seq<(string, int)>, p: string) {
    ValuesAt(amounts, p + "_tiyn") != [] && Agrees(scalars, amounts, p + "_tiyn")
  }

  /** The report on the siblings of a path is exact unless wrong integers are hidden. */
  lemma SiblingReportIsExact(scalars: seq<(string, Scalar)>, amounts: seq<(string, int)>, p: string)
    ensures (IsFailure(scalars, amounts, IntegerDisagrees(p)) <==> SiblingWrong(scalars, amounts, p))
       <==> !(SiblingWrong(scalars, amounts, p) && SiblingHidden(scalars, amounts, p))
  {
  }

  /** The machine form, part by part. */
  lemma MachineMoneyIff(s: string)
    ensures MachineMoney(s) <==>
              exists minus, whole, cents ::
                Parts(s, minus, whole, cents) && (minus == "" || minus == "-") &&
                whole != "" && IsNumeral(whole) && |cents| == 2 && IsNumeral(cents)
  {
    if MachineMoney(s) {
      MachineHasParts(s);
    }
    if minus, whole, cents :|
      Parts(s, minus, whole, cents) && (minus == "" || minus == "-") &&
      whole != "" && IsNumeral(whole) && |cents| == 2 && IsNumeral(cents)
    {
      PartsAreMachine(minus, whole, cents);
    }
  }

  lemma MachineHasParts(s: string)
    requires MachineMoney(s)
    ensures exists minus, whole, cents ::
              Parts(s, minus, whole, cents) && (minus == "" || minus == "-") &&
              whole != "" && IsNumeral(whole) && |cents| == 2 && IsNumeral(cents)
  {
    var minus := if s[0] == '-' then "-" else "";
    var d := s[|minus|..];
    var whole, cents := d[..|d| - 3], d[|d| - 2..];
    assert d == whole + "." + cents;
    assert s == minus + d == minus + whole + "." + cents;
    assert Parts(s, minus, whole, cents);
  }

  lemma PartsAreMachine(minus: string, whole: string, cents: string)
    requires (minus == "" || minus == "-") && whole != "" && IsNumeral(whole) && |cents| == 2 && IsNumeral(cents)
    ensures MachineMoney(minus + whole + "." + cents)
  {
    var d := whole + "." + cents;
    var s := minus + whole + "." + cents;
    assert s == minus + d;
    assert IsDigit(whole[0]) && d[0] == whole[0];
    assert d[..|d| - 3] == whole && d[|d| - 2..] == cents;
    if minus == "" {
      assert s == d;
    } else {
      assert s[1..] == d;
    }
  }

  predicate Parts(s: string, minus: string, whole: string, cents: string) { s == minus + whole + "." + cents }

  /** At one path: the amounts declared are there, in their printed forms, and the integers beside them agree. */
  predicate PathRight(scalars: seq<(string, Scalar)>, amounts: seq<(string, int)>, p: string) {
    var declared, there := ValuesAt(amounts, p), ValuesAt(scalars, p);
    var q := p + "_tiyn";
    var beside := Integers(ValuesAt(scalars, q));
    declared != [] ==>
      && there != [] && multiset(AllPrinted(declared)) == multiset(Shown(there))
      && (beside == [] || multiset(beside) == multiset(declared) ||
          (ValuesAt(amounts, q) != [] &&
           multiset(AllPrinted(ValuesAt(amounts, q))) == multiset(Shown(ValuesAt(scalars, q)))))
  }

  /** One scalar: not in machine form, and declared if it looks printed. */
  predicate ScalarRight(amounts: seq<(string, int)>, p: string, v: string) {
    !MatchesMachine(v) && (MatchesPrinted(v) ==> ValuesAt(amounts, p) != [])
  }

  /** The check is silent exactly on fixtures that are right path by path and scalar by scalar. */
  lemma SilentIff(scalars: seq<(string, Scalar)>, amounts: seq<(string, int)>)
    ensures (forall f :: !IsFailure(scalars, amounts, f)) <==>
              && (forall p :: PathRight(scalars, amounts, p))
              && (forall p, v :: (p, Text(v)) in scalars ==> ScalarRight(amounts, p, v))
  {
    forall p ensures PathRight(scalars, amounts, p) <==>
                       !IsFailure(scalars, amounts, ExpectationRot(p)) &&
                       !IsFailure(scalars, amounts, FixtureFormat(p)) &&
                       !IsFailure(scalars, amounts, IntegerDisagrees(p))
    {
      SiblingReportIsExact(scalars, amounts, p);
    }
    forall p, v ensures ((p, Text(v)) in scalars ==> ScalarRight(amounts, p, v)) <==>
                          !IsFailure(scalars, amounts, MachineForm(p, v)) &&
                          !IsFailure(scalars, amounts, UndeclaredAmount(p, v))
    {
    }
    if (forall p :: PathRight(scalars, amounts, p)) &&
       forall p, v :: (p, Text(v)) in scalars ==> ScalarRight(amounts, p, v)
    {
      forall f ensures !IsFailure(scalars, amounts, f) {
        assert PathRight(scalars, amounts, f.path);
      }
    }
  }

  /** A declared path that is another declared path with `_tiyn` appended. */
  predicate Stacked(amounts: seq<(string, int)>, p: string) {
    ValuesAt(amounts, p) != [] && ValuesAt(amounts, p + "_tiyn") != []
  }

  function At(path: string, values: seq<Scalar>): seq<(string, Scalar)> {
    seq(|values|, i requires 0 <= i < |values| => (path, values[i]))
  }

  lemma {:induction false} ValuesOfAt(path: string, values: seq<Scalar>)
    ensures ValuesAt(At(path, values), path) == values
  {
    if values != [] {
      var n := |values| - 1;
      assert At(path, values)[..n] == At(path, values[..n]);
      ValuesOfAt(path, values[..n]);
    }
  }

  lemma PrintedIsShown(t: int)
    ensures Stripped(Printed(t)) == Printed(t) != ""
  {
    var s := Printed(t);
    SignInFront(t);
    SignInFront(Abs(t));
    GroupedMatches(Abs(t) / 100);
    assert s[|s| - 1] == Two(Abs(t) % 100)[1];
    assert IsDigit(Grouped(Abs(t) / 100)[0]);
    StrippedIsTrimmed(s);
  }

  lemma ShownSnoc(values: seq<Scalar>, v: Scalar)
    ensures Shown(values + [v]) == Shown(values) + if v.Text? && Stripped(v.s) != "" then [v.s] else []
    ensures Integers(values + [v]) == Integers(values) + if v.Integer? then [v.n] else []
  {
    assert (values + [v])[..|values|] == values;
  }

  lemma {:induction false} PrintedTextsAreShown(tiyn: seq<int>)
    ensures Shown(Texts(AllPrinted(tiyn))) == AllPrinted(tiyn)
  {
    if tiyn != [] {
      var n := |tiyn| - 1;
      var before := AllPrinted(tiyn[..n]);
      PrintedTextsAreShown(tiyn[..n]);
      PrintedIsShown(tiyn[n]);
      ShownSnoc(Texts(before), Text(Printed(tiyn[n])));
      assert Texts(AllPrinted(tiyn)) == Texts(before) + [Text(Printed(tiyn[n]))];
    }
  }

  /** The right strings for some amounts, and an integer beside them. */
  function Beside(tiyn: seq<int>, n: int): seq<Scalar> { Texts(AllPrinted(tiyn)) + [Integer(n)] }

  lemma BesideShows(tiyn: seq<int>, n: int)
    ensures Shown(Beside(tiyn, n)) == AllPrinted(tiyn) && Integers(Beside(tiyn, n)) == [n]
  {
    ShownSnoc(Texts(AllPrinted(tiyn)), Integer(n));
    PrintedTextsAreShown(tiyn);
    TextsHaveNoIntegers(AllPrinted(tiyn));
  }

  lemma NextIntegerDiffers(declared: seq<int>)
    requires declared != []
    ensures multiset([declared[0] + 1]) != multiset(declared)
  {
    assert declared[0] in multiset(declared) && declared[0] !in multiset([declared[0] + 1]);
  }

  /** Right strings at the sibling path hide whatever integers stand beside them. */
  lemma RightStringsHide(scalars: seq<(string, Scalar)>, amounts: seq<(string, int)>, p: string, q: string, n: int)
    requires q == p + "_tiyn" && ValuesAt(amounts, p) != [] && ValuesAt(amounts, q) != []
    requires Shown(ValuesAt(scalars, q)) == AllPrinted(ValuesAt(amounts, q))
    requires Integers(ValuesAt(scalars, q)) == [n] && multiset([n]) != multiset(ValuesAt(amounts, p))
    ensures SiblingWrong(scalars, amounts, p) && !IsFailure(scalars, amounts, IntegerDisagrees(p))
  {
    assert Agrees(scalars, amounts, q);
    SiblingReportIsExact(scalars, amounts, p);
  }

  /** A fixture with the right strings at one path and an integer beside them. */
  function FixtureBeside(q: string, tiyn: seq<int>, n: int): seq<(string, Scalar)> { At(q, Beside(tiyn, n)) }

  lemma FixtureBesideShows(q: string, tiyn: seq<int>, n: int)
    ensures var values := ValuesAt(FixtureBeside(q, tiyn, n), q);
            Shown(values) == AllPrinted(tiyn) && Integers(values) == [n]
  {
    ValuesOfAt(q, Beside(tiyn, n));
    BesideShows(tiyn, n);
  }

  /** At a stacked path there are fixtures whose wrong sibling integers go unreported. */
  lemma StackedPathHides(amounts: seq<(string, int)>, p: string) returns (scalars: seq<(string, Scalar)>)
    requires Stacked(amounts, p)
    ensures SiblingWrong(scalars, amounts, p) && !IsFailure(scalars, amounts, IntegerDisagrees(p))
  {
    var q := p + "_tiyn";
    var declared, other := ValuesAt(amounts, p), ValuesAt(amounts, q);
    var n := declared[0] + 1;
    scalars := FixtureBeside(q, other, n);
    FixtureBesideShows(q, other, n);
    NextIntegerDiffers(declared);
    RightStringsHide(scalars, amounts, p, q, n);
  }

  /**
   The sibling check reports exactly the wrong siblings, whatever the fixture, if and only
   if no declared path is another declared path with `_tiyn` appended.
   */
  lemma SiblingCheckIsExactIff(amounts: seq<(string, int)>, p: string)
    ensures (forall scalars: seq<(string, Scalar)> ::
               IsFailure(scalars, amounts, IntegerDisagrees(p)) <==> SiblingWrong(scalars, amounts, p))
       <==> !Stacked(amounts, p)
  {
    if Stacked(amounts, p) {
      var scalars := StackedPathHides(amounts, p);
      assert SiblingWrong(scalars, amounts, p) && !IsFailure(scalars, amounts, IntegerDisagrees(p));
    } else {
      forall scalars: seq<(string, Scalar)>
        ensures IsFailure(scalars, amounts, IntegerDisagrees(p)) <==> SiblingWrong(scalars, amounts, p)
      {
        SiblingReportIsExact(scalars, amounts, p);
      }
    }
  }

  lemma ValuesSnoc<T>(pairs: seq<(string, T)>, p: string, v: T, path: string)
    ensures ValuesAt(pairs + [(p, v)], path) == ValuesAt(pairs, path) + if p == path then [v] else []
  {
    assert (pairs + [(p, v)])[..|pairs|] == pairs;
  }

  lemma PairValues<T>(p: string, v: T, q: string, w: T, path: string)
    ensures ValuesAt([(p, v), (q, w)], path) == (if p == path then [v] else []) + (if q == path then [w] else [])
  {
    var none: seq<(string, T)> := [];
    ValuesSnoc(none, p, v, path);
    ValuesSnoc(none + [(p, v)], q, w, path);
    assert none + [(p, v)] + [(q, w)] == [(p, v), (q, w)];
  }

  /**
   Two directives for the columns of a table, and a fixture with "0,02" in one row and the
   integer 5 in the next, which contradicts the 1 declared for it.
   */
  lemma HiddenSibling()
    ensures var p, q := "rows[].sum", "rows[].sum_tiyn";
            var amounts, scalars := [(p, 1), (q, 2)], [(q, Text("0,02")), (q, Integer(5))];
            SiblingWrong(scalars, amounts, p) && !IsFailure(scalars, amounts, IntegerDisagrees(p))
  {
    var p, q := "rows[].sum", "rows[].sum_tiyn";
    var amounts, scalars := [(p, 1), (q, 2)], [(q, Text("0,02")), (q, Integer(5))];
    PairValues(p, 1, q, 2, p);
    PairValues(p, 1, q, 2, q);
    PairValues(q, Text("0,02"), q, Integer(5), q);
    TwoBesideFive();
    BesideShows([2], 5);
    assert 5 in multiset([5]) && 5 !in multiset([1]);
    RightStringsHide(scalars, amounts, p, q, 5);
  }

  lemma TwoBesideFive()
    ensures Beside([2], 5) == [Text("0,02"), Integer(5)]
  {
    assert Printed(2) == "0,02";
    assert [2][..0] == [];
    assert AllPrinted([2]) == ["0,02"];
  }

  /**
   If the check is silent, then at every declared path the strings the fixture shows are the
   printed forms of exactly the declared integers, each as often as it is declared, and decode
   to them; the integers beside the path, unless hidden, are the declared ones; no scalar is
   in the machine form, and every scalar that looks like a printed amount stands at a
   declared path.
   */
  lemma SilenceMeansAmountsAreRight(scalars: seq<(string, Scalar)>, amounts: seq<(string, int)>, path: string)
    requires forall f :: !IsFailure(scalars, amounts, f)
    requires forall t :: t in ValuesAt(amounts, path) ==> t >= 0
    ensures ValuesAt(amounts, path) != [] ==>
              var shown, declared := Shown(ValuesAt(scalars, path)), ValuesAt(amounts, path);
              && (forall t :: multiset(shown)[Printed(t)] == multiset(declared)[t])
              && (forall s :: s in shown ==> Decoded(s) in declared && s == Printed(Decoded(s)))
    ensures var theirs, declared := Integers(ValuesAt(scalars, path + "_tiyn")), ValuesAt(amounts, path);
            declared != [] && !SiblingHidden(scalars, amounts, path) && theirs != [] ==>
              multiset(theirs) == multiset(declared)
    ensures forall v :: (path, Text(v)) in scalars ==>
              !MatchesMachine(v) && (MatchesPrinted(v) ==> ValuesAt(amounts, path) != [])
  {
    assert !IsFailure(scalars, amounts, ExpectationRot(path));
    assert !IsFailure(scalars, amounts, FixtureFormat(path));
    assert !IsFailure(scalars, amounts, IntegerDisagrees(path));
    SiblingReportIsExact(scalars, amounts, path);
    var shown, declared := Shown(ValuesAt(scalars, path)), ValuesAt(amounts, path);
    if declared != [] {
      assert multiset(AllPrinted(declared)) == multiset(shown);
      forall t ensures multiset(shown)[Printed(t)] == multiset(declared)[t] {
        PrintingKeepsCount(declared, t);
      }
      forall s | s in shown ensures Decoded(s) in declared && s == Printed(Decoded(s)) {
        assert s in multiset(AllPrinted(declared));
        var t := PrintedOnes(declared, s);
        PrintedSaysTheAmount(t);
      }
    }
    forall v | (path, Text(v)) in scalars
      ensures !MatchesMachine(v) && (MatchesPrinted(v) ==> ValuesAt(amounts, path) != [])
    {
      assert !IsFailure(scalars, amounts, MachineForm(path, v));
      assert !IsFailure(scalars, amounts, UndeclaredAmount(path, v));
    }
  }
}
