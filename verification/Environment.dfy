/** The environment of a run's container (services/execution.go, execution/adapter/eks_adapter.go). */
module Environment {

  datatype EnvVar = EnvVar(name: string, value: string)

  type Variables = map<string, string>

  // ---- Names ----

  function WithoutSpaces(s: string): string {
    if s == "" then "" else (if s[0] == ' ' then "" else [s[0]]) + WithoutSpaces(s[1..])
  }

  /** One leading dollar sign goes, and every space. */
  function Sanitize(name: string): string {
    WithoutSpaces(if name != "" && name[0] == '$' then name[1..] else name)
  }

  lemma {:induction false} SpacesGo(s: string)
    ensures ' ' !in WithoutSpaces(s)
    ensures ' ' !in s ==> WithoutSpaces(s) == s
  {
    if s != "" {
      SpacesGo(s[1..]);
      assert s == [s[0]] + s[1..];
    }
  }

  /** Every space goes, wherever it is, and nothing else. */
  lemma {:induction false} OnlySpacesGo(a: string, b: string, c: char)
    ensures WithoutSpaces(a + b) == WithoutSpaces(a) + WithoutSpaces(b)
    ensures WithoutSpaces([c]) == if c == ' ' then "" else [c]
  {
    if a == "" {
      assert a + b == b;
    } else {
      assert (a + b)[1..] == a[1..] + b;
      OnlySpacesGo(a[1..], b, c);
    }
  }

  /** A dollar sign in front goes, once. */
  lemma OneDollarGoes(name: string)
    ensures Sanitize("$" + name) == WithoutSpaces(name)
    ensures name == "" || name[0] != '$' ==> Sanitize(name) == WithoutSpaces(name)
  {
    assert ("$" + name)[1..] == name;
  }

  /** A clean name stays as it is; so a second pass changes nothing unless a second dollar sign
      comes to the front. */
  lemma SanitizeKeeps(name: string)
    ensures Sanitize(name) == name <==> ' ' !in name && (name == "" || name[0] != '$')
    ensures Sanitize(Sanitize(name)) == Sanitize(name) <==> Sanitize(name) == "" || Sanitize(name)[0] != '$'
  {
    var rest := if name != "" && name[0] == '$' then name[1..] else name;
    SpacesGo(rest);
    ShorterWithoutSpaces(rest);
    var clean := Sanitize(name);
    SpacesGo(clean);
    if clean != "" && clean[0] == '$' { ShorterWithoutSpaces(clean[1..]); }
  }

  lemma {:induction false} ShorterWithoutSpaces(s: string)
    ensures |WithoutSpaces(s)| <= |s|
  {
    if s != "" { ShorterWithoutSpaces(s[1..]); }
  }

  // ---- What the container should see ----

  /** The variable at `i` is the last one in the list that comes to this name. */
  ghost predicate IsLast(vars: seq<EnvVar>, name: string, i: int) {
    && 0 <= i < |vars| && Sanitize(vars[i].name) == name
    && forall j | i < j < |vars| :: Sanitize(vars[j].name) != name
  }

  predicate Names(vars: seq<EnvVar>, name: string) {
    exists i | 0 <= i < |vars| :: Sanitize(vars[i].name) == name
  }

  /** Which value each name ends up with. */
  function Effective(vars: seq<EnvVar>): Variables {
    if vars == [] then map[]
    else Effective(vars[..|vars| - 1])[Sanitize(vars[|vars| - 1].name) := vars[|vars| - 1].value]
  }

  /** Exactly the names in the list, each with the value of its last writer. */
  lemma {:induction false} LastWriterWins(vars: seq<EnvVar>, name: string)
    ensures name in Effective(vars) <==> Names(vars, name)
    ensures name in Effective(vars) ==> exists i :: IsLast(vars, name, i) && vars[i].value == Effective(vars)[name]
  {
    if vars != [] {
      var init := vars[..|vars| - 1];
      LastWriterWins(init, name);
      if Sanitize(vars[|init|].name) == name {
        assert IsLast(vars, name, |init|);
      } else if name in Effective(init) {
        var i :| IsLast(init, name, i) && init[i].value == Effective(init)[name];
        assert IsLast(vars, name, i);
      }
    }
  }

  lemma OverrideOneMore(a: Variables, b: Variables, name: string, value: string)
    ensures a + b[name := value] == (a + b)[name := value]
  {}

  lemma EffectiveOfOneMore(init: seq<EnvVar>, last: EnvVar)
    ensures Effective(init + [last]) == Effective(init)[Sanitize(last.name) := last.value]
  {
    assert (init + [last])[..|init|] == init;
  }

  /** What is appended overrides. */
  lemma {:induction false} EffectiveOfAppended(s: seq<EnvVar>, t: seq<EnvVar>)
    ensures Effective(s + t) == Effective(s) + Effective(t)
  {
    if t == [] {
      assert s + t == s;
    } else {
      var init, last := t[..|t| - 1], t[|t| - 1];
      EffectiveOfAppended(s, init);
      assert s + t == s + init + [last];
      EffectiveOfOneMore(s + init, last);
      OverrideOneMore(Effective(s), Effective(init), Sanitize(last.name), last.value);
    }
  }

  /** A list gives each variable with a name once. */
  ghost predicate Presents(env: seq<EnvVar>, vars: Variables) {
    && (forall i | 0 <= i < |env| :: env[i].name != "" && env[i].name in vars && vars[env[i].name] == env[i].value)
    && (forall i, j | 0 <= i < j < |env| :: env[i].name != env[j].name)
    && forall name | name in vars && name != "" :: exists i :: 0 <= i < |env| && env[i].name == name
  }

  // ---- The code ----

  /** `envOverrides`: the definition's variables, then the run's; the resulting map is listed in
      any order. */
  method EnvOverrides(definition: seq<EnvVar>, run: seq<EnvVar>) returns (env: seq<EnvVar>)
    ensures Presents(env, Effective(definition + run))
  {
    var pairs: Variables := map[];
    for i := 0 to |definition|
      invariant pairs == Effective(definition[..i])
    {
      assert definition[..i + 1] == definition[..i] + [definition[i]];
      EffectiveOfOneMore(definition[..i], definition[i]);
      pairs := pairs[Sanitize(definition[i].name) := definition[i].value];
    }
    assert definition[..|definition|] == definition;
    assert definition + run[..0] == definition;
    for i := 0 to |run|
      invariant pairs == Effective(definition + run[..i])
    {
      assert definition + run[..i + 1] == definition + run[..i] + [run[i]];
      EffectiveOfOneMore(definition + run[..i], run[i]);
      pairs := pairs[Sanitize(run[i].name) := run[i].value];
    }
    assert run[..|run|] == run;
    env := ListPairs(pairs);
  }

  lemma PresentsOneMore(env: seq<EnvVar>, vars: Variables, key: string, value: string)
    requires Presents(env, vars) && key !in vars
    ensures Presents(if |key| > 0 then env + [EnvVar(key, value)] else env, vars[key := value])
  {
    var more := env + [EnvVar(key, value)];
    assert more[|env|].name == key;
    forall name | name in vars && name != "" ensures exists i :: 0 <= i < |more| && more[i].name == name {
      var i :| 0 <= i < |env| && env[i].name == name;
      assert more[i].name == name;
    }
  }

  method ListPairs(pairs: Variables) returns (env: seq<EnvVar>)
    ensures Presents(env, pairs)
  {
    env := [];
    var keys := pairs.Keys;
    while keys != {}
      invariant keys <= pairs.Keys
      invariant Presents(env, map name | name in pairs.Keys - keys :: pairs[name])
      decreases keys
    {
      var key :| key in keys;
      ghost var shown := map name | name in pairs.Keys - keys :: pairs[name];
      PresentsOneMore(env, shown, key, pairs[key]);
      if |key| > 0 {
        env := env + [EnvVar(key, pairs[key])];
      }
      keys := keys - {key};
      assert shown[key := pairs[key]] == map name | name in pairs.Keys - keys :: pairs[name];
    }
    assert (map name | name in pairs.Keys - {} :: pairs[name]) == pairs;
  }

  /** The reserved variables in one order, each once. */
  ghost predicate Lists(order: seq<EnvVar>, reserved: Variables) {
    && |order| == |reserved|
    && (forall i | 0 <= i < |order| :: order[i].name in reserved && reserved[order[i].name] == order[i].value)
    && (forall i, j | 0 <= i < j < |order| :: order[i].name != order[j].name)
  }

  /** `constructEnviron`: an array of the right size is filled by index, the reserved variables
      first, in whatever order the map gives them. */
  method ConstructEnviron(reserved: Variables, request: seq<EnvVar>) returns (run: seq<EnvVar>)
    ensures |run| == |reserved| + |request|
    ensures Lists(run[..|reserved|], reserved)
    ensures run[|reserved|..] == request
  {
    var size := |reserved| + |request|;
    var env := new EnvVar[size](_ => EnvVar("", ""));
    var i := 0;
    var todo := reserved.Keys;
    assert |reserved.Keys| == |reserved|;
    while todo != {}
      invariant todo <= reserved.Keys && i + |todo| == |reserved|
      invariant forall k | 0 <= k < i ::
          env[k].name in reserved.Keys - todo && reserved[env[k].name] == env[k].value
      invariant forall j, k | 0 <= j < k < i :: env[j].name != env[k].name
      decreases todo
    {
      var name :| name in todo;
      env[i] := EnvVar(name, reserved[name]);
      todo := todo - {name};
      i := i + 1;
    }
    ghost var order := env[..i];
    for j := 0 to |request|
      invariant i == |reserved| && env[..i] == order
      invariant forall k | 0 <= k < j :: env[i + k] == request[k]
    {
      env[i + j] := request[j];
    }
    run := env[..];
    assert run[..|reserved|] == order && run[|reserved|..] == request;
  }

  /** A listing leaves out no reserved variable. */
  lemma ListsAll(order: seq<EnvVar>, reserved: Variables, name: string) returns (i: nat)
    requires Lists(order, reserved) && name in reserved
    ensures i < |order| && order[i] == EnvVar(name, reserved[name])
  {
    var seen := set k | 0 <= k < |order| :: order[k].name;
    SizeOfNames(order);
    assert |reserved.Keys| == |reserved|;
    if name !in seen {
      ProperSubset(seen, reserved.Keys, name);
      assert false;
    }
    i :| 0 <= i < |order| && order[i].name == name;
  }

  lemma {:induction false} SizeOfNames(order: seq<EnvVar>)
    requires forall i, j | 0 <= i < j < |order| :: order[i].name != order[j].name
    ensures |set k | 0 <= k < |order| :: order[k].name| == |order|
  {
    if order != [] {
      var init := order[..|order| - 1];
      SizeOfNames(init);
      var before := set k | 0 <= k < |init| :: init[k].name;
      assert (set k | 0 <= k < |order| :: order[k].name) == before + {order[|init|].name};
    }
  }

  lemma ProperSubset(a: set<string>, b: set<string>, x: string)
    requires a <= b && x in b && x !in a
    ensures |a| < |b|
  {
    var rest := b - a - {x};
    assert b == a + {x} + rest;
  }

  // ---- Does the order of the reserved variables matter? ----

  /** Two reserved names come to the same name, with different values. */
  predicate Clash(reserved: Variables, a: string, b: string) {
    a in reserved && b in reserved && Sanitize(a) == Sanitize(b) && reserved[a] != reserved[b]
  }

  /** What the container sees: the named variables. */
  function Seen(vars: seq<EnvVar>): Variables {
    map name | name in Effective(vars) && name != "" :: Effective(vars)[name]
  }

  function Environ(definition: seq<EnvVar>, order: seq<EnvVar>, request: seq<EnvVar>): Variables {
    Seen(definition + (order + request))
  }

  lemma EnvironIs(definition: seq<EnvVar>, order: seq<EnvVar>, request: seq<EnvVar>, name: string)
    ensures var e := Effective(definition) + Effective(order) + Effective(request);
            && (name in Environ(definition, order, request) <==> name in e && name != "")
            && (name in Environ(definition, order, request) ==> Environ(definition, order, request)[name] == e[name])
  {
    ThreeWriters(Effective(definition), Effective(order), Effective(request));
    EffectiveOfAppended(order, request);
    EffectiveOfAppended(definition, order + request);
  }

  lemma ThreeWriters(a: Variables, b: Variables, c: Variables)
    ensures a + (b + c) == a + b + c
  {}

  /** Every order of the reserved variables gives the container the same environment exactly if
      two of them clash only on a name that the request sets, or that is empty. */
  lemma OrderIsIrrelevantIff(definition: seq<EnvVar>, reserved: Variables, request: seq<EnvVar>)
    ensures (forall x, y | Lists(x, reserved) && Lists(y, reserved) ::
               Environ(definition, x, request) == Environ(definition, y, request))
            <==>
            forall a, b | Clash(reserved, a, b) :: Names(request, Sanitize(a)) || Sanitize(a) == ""
  {
    if forall a, b | Clash(reserved, a, b) :: Names(request, Sanitize(a)) || Sanitize(a) == "" {
      forall x, y | Lists(x, reserved) && Lists(y, reserved)
        ensures Environ(definition, x, request) == Environ(definition, y, request)
      {
        SameWithoutClash(definition, reserved, request, x, y);
      }
    } else {
      var a, b :| Clash(reserved, a, b) && !Names(request, Sanitize(a)) && Sanitize(a) != "";
      var x := EndingIn(reserved, a);
      var y := EndingIn(reserved, b);
      ValueOfLast(definition, reserved, request, x, a);
      ValueOfLast(definition, reserved, request, y, b);
    }
  }

  lemma SameWithoutClash(definition: seq<EnvVar>, reserved: Variables, request: seq<EnvVar>, x: seq<EnvVar>, y: seq<EnvVar>)
    requires Lists(x, reserved) && Lists(y, reserved)
    requires forall a, b | Clash(reserved, a, b) :: Names(request, Sanitize(a)) || Sanitize(a) == ""
    ensures Environ(definition, x, request) == Environ(definition, y, request)
  {
    var ex, ey := Environ(definition, x, request), Environ(definition, y, request);
    forall name ensures name in ex <==> name in ey
      ensures name in ex ==> ex[name] == ey[name]
    {
      EnvironIs(definition, x, request, name);
      EnvironIs(definition, y, request, name);
      LastWriterWins(request, name);
      SameNames(reserved, x, y, name);
      SameNames(reserved, y, x, name);
      if name in Effective(x) && name != "" && !Names(request, name) {
        LastWriterWins(x, name);
        LastWriterWins(y, name);
        var i :| IsLast(x, name, i) && x[i].value == Effective(x)[name];
        var j :| IsLast(y, name, j) && y[j].value == Effective(y)[name];
        assert !Clash(reserved, x[i].name, y[j].name);
      }
    }
  }

  lemma SameNames(reserved: Variables, x: seq<EnvVar>, y: seq<EnvVar>, name: string)
    requires Lists(x, reserved) && Lists(y, reserved)
    ensures name in Effective(x) ==> name in Effective(y)
  {
    LastWriterWins(x, name);
    LastWriterWins(y, name);
    if name in Effective(x) {
      var i :| 0 <= i < |x| && Sanitize(x[i].name) == name;
      var j := ListsAll(y, reserved, x[i].name);
      assert Sanitize(y[j].name) == name;
    }
  }

  /** Some order has the given variable at its end. */
  lemma EndingIn(reserved: Variables, last: string) returns (order: seq<EnvVar>)
    requires last in reserved
    ensures Lists(order, reserved) && order[|order| - 1].name == last
  {
    var rest := Listing(reserved - {last});
    assert |reserved| == |reserved - {last}| + 1 by {
      assert (reserved - {last}).Keys == reserved.Keys - {last};
      assert |reserved.Keys| == |(reserved - {last}).Keys| + 1;
    }
    order := rest + [EnvVar(last, reserved[last])];
  }

  lemma {:induction false} Listing(vars: Variables) returns (order: seq<EnvVar>)
    ensures Lists(order, vars)
    decreases |vars|
  {
    if vars == map[] {
      order := [];
    } else {
      var name :| name in vars;
      assert (vars - {name}).Keys == vars.Keys - {name};
      assert |vars| == |vars.Keys| == |(vars - {name}).Keys| + 1 == |vars - {name}| + 1;
      var rest := Listing(vars - {name});
      order := rest + [EnvVar(name, vars[name])];
    }
  }

  lemma ValueOfLast(definition: seq<EnvVar>, reserved: Variables, request: seq<EnvVar>, order: seq<EnvVar>, name: string)
    requires Lists(order, reserved) && order != [] && order[|order| - 1].name == name
    requires Sanitize(name) != "" && !Names(request, Sanitize(name))
    ensures Sanitize(name) in Environ(definition, order, request)
    ensures Environ(definition, order, request)[Sanitize(name)] == reserved[name]
  {
    EnvironIs(definition, order, request, Sanitize(name));
    LastWriterWins(request, Sanitize(name));
  }

  /** From the request to the container: each named variable once, valued by its last writer over
      definition, reserved and request variables. */
  method ContainerEnvironment(definition: seq<EnvVar>, reserved: Variables, request: seq<EnvVar>)
    returns (env: seq<EnvVar>)
    ensures exists order :: Lists(order, reserved) && Presents(env, Environ(definition, order, request))
  {
    var run := ConstructEnviron(reserved, request);
    env := EnvOverrides(definition, run);
    ghost var order := run[..|reserved|];
    assert run == order + request;
    assert Lists(order, reserved) && Presents(env, Environ(definition, order, request));
  }

  /** For example, two reserved names that differ only by a dollar sign overwrite each other. */
  lemma OrderCanMatter()
    ensures var a, b := EnvVar("A", "1"), EnvVar("$A", "2");
            && Lists([a, b], map["A" := "1", "$A" := "2"]) && Lists([b, a], map["A" := "1", "$A" := "2"])
            && Environ([], [a, b], []) == map["A" := "2"] && Environ([], [b, a], []) == map["A" := "1"]
  {
    var a, b := EnvVar("A", "1"), EnvVar("$A", "2");
    assert "$A"[1..] == "A" && "A"[1..] == "";
    assert WithoutSpaces("") == "" && WithoutSpaces("A") == "A";
    assert Sanitize("A") == "A" && Sanitize("$A") == "A";
    assert |map["A" := "1", "$A" := "2"]| == 2;
    TwoWriters(a, b);
    TwoWriters(b, a);
  }

  lemma TwoWriters(a: EnvVar, b: EnvVar)
    requires Sanitize(a.name) == Sanitize(b.name) != ""
    ensures Environ([], [a, b], []) == map[Sanitize(b.name) := b.value]
  {
    assert [] + ([a, b] + []) == [a, b];
    assert [a, b] == [] + [a] + [b];
    EffectiveOfOneMore([], a);
    EffectiveOfOneMore([] + [a], b);
    assert Effective([a, b]) == map[Sanitize(b.name) := b.value];
  }

  /** Names that differ once sanitised never clash. */
  lemma DistinctNamesNeedNoOrder(definition: seq<EnvVar>, reserved: Variables, request: seq<EnvVar>, x: seq<EnvVar>, y: seq<EnvVar>)
    requires forall a, b | a in reserved && b in reserved && Sanitize(a) == Sanitize(b) :: a == b
    requires Lists(x, reserved) && Lists(y, reserved)
    ensures Environ(definition, x, request) == Environ(definition, y, request)
  {
    SameWithoutClash(definition, reserved, request, x, y);
  }
}
