/** Versions of templates (services/template.go, with the queries it relies on). */
module Templates {
  import opened Commons

  datatype EnvVar = EnvVar(name: string, value: string)

  /** Payloads and schemas are maps from keys to JSON texts. */
  type Json = map<string, string>

  datatype Resources = Resources(
    image: string,
    memory: Option<int>,
    gpu: Option<int>,
    cpu: Option<int>,
    env: Option<seq<EnvVar>>,
    adaptive: Option<bool>,
    ports: Option<seq<int>>,
    tags: Option<seq<string>>)

  datatype Request = Request(
    name: string,
    schema: Json,
    command: string,
    defaults: Option<Json>,
    avatar: string,
    resources: Resources)

  datatype Template = Template(
    name: string,
    version: int,
    schema: Json,
    command: string,
    defaults: Json,
    avatar: string,
    resources: Resources)

  // ---- From a request to a template ----

  /** Nothing if the adaptive flag is missing: its default is written through a nil pointer. */
  function Construct(req: Request): Option<Template> {
    if req.resources.adaptive == None then None
    else Some(Template(req.name, 0, req.schema, req.command,
      if req.defaults.Some? then req.defaults.value else map[], req.avatar,
      req.resources.(
        memory := Some(if req.resources.memory.Some? then req.resources.memory.value else MIN_MEM),
        cpu := Some(if req.resources.cpu.Some? then req.resources.cpu.value else MIN_CPU))))
  }

  predicate IsValid(t: Template) {
    t.name != "" && t.schema != map[] && t.command != "" && t.resources.image != "" && t.resources.memory.Some?
  }

  // ---- Comparing two templates ----

  datatype Verdict = Same | Different | Panics

  /** Lists are compared only if both are there. */
  predicate Apart<T(==)>(prev: Option<seq<T>>, curr: Option<seq<T>>) {
    prev.Some? && curr.Some? && prev.value != curr.value
  }

  method ListsDiffer<T(==)>(prev: seq<T>, curr: seq<T>) returns (differ: bool)
    ensures differ <==> prev != curr
  {
    if |prev| != |curr| {
      return true;
    }
    for i := 0 to |prev|
      invariant prev[..i] == curr[..i]
    {
      if prev[i] != curr[i] {
        return true;
      }
    }
    assert prev[..|prev|] == prev && curr[..|curr|] == curr;
    return false;
  }

  /** `diff`, field by field in order; a nil number or flag is only met if all before it agree. */
  method Diff(prev: Template, curr: Template) returns (verdict: Verdict)
    ensures verdict == Compare(prev, curr)
  {
    var p, c := prev.resources, curr.resources;
    if prev.name != curr.name || prev.command != curr.command || p.image != c.image {
      return Different;
    }
    if p.memory == None || c.memory == None { return Panics; }
    if p.memory != c.memory { return Different; }
    if p.gpu == None || c.gpu == None { return Panics; }
    if p.gpu != c.gpu { return Different; }
    if p.cpu == None || c.cpu == None { return Panics; }
    if p.cpu != c.cpu { return Different; }
    if p.env.Some? && c.env.Some? {
      var differ := ListsDiffer(p.env.value, c.env.value);
      if differ { return Different; }
    }
    if p.adaptive == None || c.adaptive == None { return Panics; }
    if p.adaptive != c.adaptive || prev.defaults != curr.defaults || prev.avatar != curr.avatar {
      return Different;
    }
    if p.ports.Some? && c.ports.Some? {
      var differ := ListsDiffer(p.ports.value, c.ports.value);
      if differ { return Different; }
    }
    if p.tags.Some? && c.tags.Some? {
      var differ := ListsDiffer(p.tags.value, c.tags.value);
      if differ { return Different; }
    }
    return if prev.schema != curr.schema then Different else Same;
  }

  /** All numbers and the flag are there. */
  predicate Filled(t: Template) {
    t.resources.memory.Some? && t.resources.gpu.Some? && t.resources.cpu.Some? && t.resources.adaptive.Some?
  }

  /** Equal, up to the version and to lists that one of the two leaves out. */
  predicate Agree(prev: Template, curr: Template) {
    && prev.name == curr.name && prev.schema == curr.schema && prev.command == curr.command
    && prev.defaults == curr.defaults && prev.avatar == curr.avatar
    && !Apart(prev.resources.env, curr.resources.env)
    && !Apart(prev.resources.ports, curr.resources.ports)
    && !Apart(prev.resources.tags, curr.resources.tags)
    && prev.resources.image == curr.resources.image && prev.resources.memory == curr.resources.memory
    && prev.resources.gpu == curr.resources.gpu && prev.resources.cpu == curr.resources.cpu
    && prev.resources.adaptive == curr.resources.adaptive
  }

  function Compare(prev: Template, curr: Template): Verdict {
    var p, c := prev.resources, curr.resources;
    if Filled(prev) && Filled(curr) then if Agree(prev, curr) then Same else Different
    else if prev.name != curr.name || prev.command != curr.command || p.image != c.image then Different
    else if p.memory == None || c.memory == None then Panics
    else if p.memory != c.memory then Different
    else if p.gpu == None || c.gpu == None then Panics
    else if p.gpu != c.gpu then Different
    else if p.cpu == None || c.cpu == None then Panics
    else if p.cpu != c.cpu || Apart(p.env, c.env) then Different
    else Panics
  }

  predicate SameOrMissing<T(==)>(prev: Option<seq<T>>, curr: Option<seq<T>>) {
    prev == None || curr == None || prev == curr
  }

  /** Two complete templates are the same exactly if they are equal records but for the version, up to
      lists that one of them leaves out. */
  lemma SameIffEqual(prev: Template, curr: Template)
    requires Filled(prev) && Filled(curr)
    ensures Compare(prev, curr) == Same <==>
              && curr.(version := prev.version,
                       resources := curr.resources.(env := prev.resources.env, ports := prev.resources.ports, tags := prev.resources.tags))
                 == prev
              && SameOrMissing(prev.resources.env, curr.resources.env)
              && SameOrMissing(prev.resources.ports, curr.resources.ports)
              && SameOrMissing(prev.resources.tags, curr.resources.tags)
    ensures Compare(prev, curr) == Same || Compare(prev, curr) == Different
  {}

  // ---- The table ----

  predicate IsLatest(rows: seq<Template>, name: string, i: int) {
    && 0 <= i < |rows| && rows[i].name == name
    && forall j | 0 <= j < |rows| && rows[j].name == name :: rows[j].version <= rows[i].version
  }

  /** The row of the name with the highest version. */
  function Latest(rows: seq<Template>, name: string): Option<Template> {
    if rows == [] then None
    else
      var before, last := Latest(rows[..|rows| - 1], name), rows[|rows| - 1];
      if last.name == name && (before == None || before.value.version <= last.version) then Some(last) else before
  }

  lemma {:induction false} LatestIsHighest(rows: seq<Template>, name: string)
    ensures Latest(rows, name) == None <==> forall j | 0 <= j < |rows| :: rows[j].name != name
    ensures Latest(rows, name).Some? ==> exists i :: IsLatest(rows, name, i) && rows[i] == Latest(rows, name).value
  {
    if rows != [] {
      var init, last := rows[..|rows| - 1], rows[|rows| - 1];
      var before := Latest(init, name);
      LatestIsHighest(init, name);
      assert forall j | 0 <= j < |init| :: rows[j] == init[j];
      if last.name == name && (before == None || before.value.version <= last.version) {
        assert IsLatest(rows, name, |init|);
      } else if before.Some? {
        var i :| IsLatest(init, name, i) && init[i] == before.value;
        assert IsLatest(rows, name, i);
      }
    }
  }

  /** The columns that are written: not the ports and not the tags. */
  function Persisted(t: Template): Template {
    t.(resources := t.resources.(ports := None, tags := None))
  }

  datatype Outcome = Created(template: Template) | Existing(template: Template) | Malformed | Refused | Panicked

  class Table {
    var rows: seq<Template>

    constructor ()
      ensures rows == []
    {
      rows := [];
    }

    /** The statement fails or not; it does if the GPU count is missing, as the column takes no null. */
    method Insert(t: Template, insertOk: bool) returns (outcome: Outcome)
      modifies this
      ensures outcome == if insertOk && t.resources.gpu.Some? then Created(t) else Refused
      ensures rows == old(rows) + if outcome.Created? then [Persisted(t)] else []
    {
      if !insertOk || t.resources.gpu == None {
        return Refused;
      }
      rows := rows + [Persisted(t)];
      return Created(t);
    }

    /** An error of the query or of the insert is handed back. */
    method Create(call: Call) returns (outcome: Outcome)
      modifies this
      ensures outcome == Respond(old(rows), call)
      ensures rows == Rows(old(rows), outcome)
    {
      var constructed := Construct(call.req);
      if constructed == None {
        return Panicked;
      }
      var curr := constructed.value;
      if !IsValid(curr) {
        return Malformed;
      }
      if !call.queryOk {
        return Refused;
      }
      var prev := Latest(rows, curr.name);
      if prev == None {
        outcome := Insert(curr.(version := 1), call.insertOk);
        return;
      }
      var verdict := Diff(prev.value, curr);
      match verdict {
        case Panics => return Panicked;
        case Same => return Existing(prev.value);
        case Different => outcome := Insert(curr.(version := prev.value.version + 1), call.insertOk);
      }
    }
  }

  /** A request, and whether the database answers the query for the latest row at the time, and
      takes an insert. */
  datatype Call = Call(req: Request, queryOk: bool, insertOk: bool)

  /** What a request comes to. */
  function Respond(rows: seq<Template>, call: Call): Outcome {
    match Construct(call.req)
    case None => Panicked
    case Some(curr) =>
      if !IsValid(curr) then Malformed
      else if !call.queryOk then Refused
      else
        var prev := Latest(rows, curr.name);
        var verdict := if prev == None then Different else Compare(prev.value, curr);
        if verdict == Panics then Panicked
        else if verdict == Same then Existing(prev.value)
        else if !call.insertOk || curr.resources.gpu == None then Refused
        else Created(curr.(version := if prev == None then 1 else prev.value.version + 1))
  }

  function Rows(rows: seq<Template>, outcome: Outcome): seq<Template> {
    if outcome.Created? then rows + [Persisted(outcome.template)] else rows
  }

  function AfterAll(rows: seq<Template>, calls: seq<Call>): seq<Template> {
    if calls == [] then rows
    else
      var before := AfterAll(rows, calls[..|calls| - 1]);
      Rows(before, Respond(before, calls[|calls| - 1]))
  }

  // ---- What holds of the table ----

  function Count(rows: seq<Template>, name: string): nat {
    if rows == [] then 0
    else Count(rows[..|rows| - 1], name) + if rows[|rows| - 1].name == name then 1 else 0
  }

  /** Each row is complete and numbered by how many rows of its name came before. */
  predicate Numbered(rows: seq<Template>) {
    rows != [] ==>
      var init, last := rows[..|rows| - 1], rows[|rows| - 1];
      Numbered(init) && last.version == Count(init, last.name) + 1 && Filled(last) && last == Persisted(last)
  }

  /** Each row differs from the one it replaced as the latest. */
  predicate NextDiffers(rows: seq<Template>) {
    rows != [] ==>
      var init, last := rows[..|rows| - 1], rows[|rows| - 1];
      NextDiffers(init) && (Latest(init, last.name).Some? ==> Compare(Latest(init, last.name).value, last) == Different)
  }

  lemma {:induction false} LatestHasVersionCount(rows: seq<Template>, name: string)
    requires Numbered(rows)
    ensures Latest(rows, name) == None <==> Count(rows, name) == 0
    ensures Latest(rows, name).Some? ==>
              var t := Latest(rows, name).value;
              t.version == Count(rows, name) && t.name == name && Filled(t) && t == Persisted(t)
  {
    if rows != [] {
      LatestHasVersionCount(rows[..|rows| - 1], name);
    }
  }

  /** One more request keeps the table in order. */
  lemma CreateKeepsOrder(rows: seq<Template>, call: Call)
    requires Numbered(rows) && NextDiffers(rows)
    ensures Numbered(Rows(rows, Respond(rows, call))) && NextDiffers(Rows(rows, Respond(rows, call)))
  {
    var outcome := Respond(rows, call);
    if outcome.Created? {
      var row := Persisted(outcome.template);
      assert (rows + [row])[..|rows|] == rows;
      LatestHasVersionCount(rows, row.name);
    }
  }

  lemma {:induction false} TableStaysInOrder(calls: seq<Call>)
    ensures Numbered(AfterAll([], calls)) && NextDiffers(AfterAll([], calls))
  {
    if calls != [] {
      TableStaysInOrder(calls[..|calls| - 1]);
      CreateKeepsOrder(AfterAll([], calls[..|calls| - 1]), calls[|calls| - 1]);
    }
  }

  predicate HasVersion(rows: seq<Template>, name: string, version: int, i: int) {
    0 <= i < |rows| && rows[i].name == name && rows[i].version == version
  }

  ghost predicate HasSome(rows: seq<Template>, name: string, version: int) {
    exists i :: HasVersion(rows, name, version, i)
  }

  lemma {:induction false} VersionsInOrder(rows: seq<Template>, name: string, version: int)
    requires Numbered(rows)
    ensures HasSome(rows, name, version) <==> 1 <= version <= Count(rows, name)
    ensures forall i, j | HasVersion(rows, name, version, i) && HasVersion(rows, name, version, j) :: i == j
  {
    if rows != [] {
      var init := rows[..|rows| - 1];
      VersionsInOrder(init, name, version);
      assert forall i | 0 <= i < |init| :: HasVersion(rows, name, version, i) <==> HasVersion(init, name, version, i);
      if HasVersion(rows, name, version, |init|) {
        assert version == Count(rows, name);
      } else if 1 <= version <= Count(init, name) {
        var i :| HasVersion(init, name, version, i);
        assert HasVersion(rows, name, version, i);
      }
    }
  }

  lemma LatestIsAt(rows: seq<Template>, name: string, i: int)
    requires Numbered(rows) && HasVersion(rows, name, Count(rows, name), i)
    ensures Latest(rows, name) == Some(rows[i])
  {
    LatestHasVersionCount(rows, name);
    LatestIsHighest(rows, name);
    var at :| IsLatest(rows, name, at) && rows[at] == Latest(rows, name).value;
    assert HasVersion(rows, name, Count(rows, name), at);
    VersionsInOrder(rows, name, Count(rows, name));
  }

  lemma {:induction false} ConsecutiveDiffer(rows: seq<Template>, i: nat, j: nat)
    requires Numbered(rows) && NextDiffers(rows)
    requires i < |rows| && j < |rows| && rows[i].name == rows[j].name && rows[j].version == rows[i].version + 1
    ensures Compare(rows[i], rows[j]) == Different
  {
    var init, last := rows[..|rows| - 1], rows[|rows| - 1];
    if j < |init| && i < |init| {
      ConsecutiveDiffer(init, i, j);
    } else if i < |init| {
      assert HasVersion(init, last.name, Count(init, last.name), i);
      LatestIsAt(init, last.name, i);
    } else {
      assert HasVersion(rows, last.name, rows[j].version, j);
      VersionsInOrder(rows, last.name, rows[j].version);
    }
  }

  /** Over any requests, whichever queries and inserts fail: the versions of a name are 1 to k, each once, and a
      version differs from the one before. */
  lemma VersionsAreOneToK(calls: seq<Call>, name: string)
    ensures var rows := AfterAll([], calls);
            && (forall v :: HasSome(rows, name, v) <==> 1 <= v <= Count(rows, name))
            && (forall v: int, i, j | HasVersion(rows, name, v, i) && HasVersion(rows, name, v, j) :: i == j)
            && forall v: int, i, j | HasVersion(rows, name, v, i) && HasVersion(rows, name, v + 1, j) ::
                 Compare(rows[i], rows[j]) == Different
  {
    var rows := AfterAll([], calls);
    TableStaysInOrder(calls);
    forall v ensures HasSome(rows, name, v) <==> 1 <= v <= Count(rows, name) {
      VersionsInOrder(rows, name, v);
    }
    forall v: int, i, j | HasVersion(rows, name, v, i) && HasVersion(rows, name, v, j) ensures i == j {
      VersionsInOrder(rows, name, v);
    }
    forall v: int, i, j | HasVersion(rows, name, v, i) && HasVersion(rows, name, v + 1, j)
      ensures Compare(rows[i], rows[j]) == Different
    {
      ConsecutiveDiffer(rows, i, j);
    }
  }

  /** A request that went through creates nothing when repeated: the answer is the latest row, unless
      the query for it fails. */
  lemma RepeatingCreatesNothing(rows: seq<Template>, call: Call, again: Call)
    requires Numbered(rows) && again.req == call.req
    requires Respond(rows, call).Created? || Respond(rows, call).Existing?
    ensures var after := Rows(rows, Respond(rows, call));
            && Latest(after, call.req.name).Some?
            && Respond(after, again) == (if again.queryOk then Existing(Latest(after, call.req.name).value) else Refused)
            && Rows(after, Respond(after, again)) == after
  {
    var outcome := Respond(rows, call);
    if outcome.Created? {
      var row := Persisted(outcome.template);
      CreatedRow(rows, call);
      NewRowIsLatest(rows, row);
      AgreesWhenStored(outcome.template, Construct(call.req).value);
      SameIsExisting(rows + [row], again);
    }
  }

  lemma CreatedRow(rows: seq<Template>, call: Call)
    requires Numbered(rows) && Respond(rows, call).Created?
    ensures Construct(call.req).Some? && IsValid(Construct(call.req).value)
    ensures var t, curr := Respond(rows, call).template, Construct(call.req).value;
            Filled(t) && t == curr.(version := t.version) && t.version == Count(rows, t.name) + 1 && t.name == curr.name
  {
    LatestHasVersionCount(rows, call.req.name);
  }

  /** A valid request that agrees with the latest row is answered with it. */
  lemma SameIsExisting(rows: seq<Template>, call: Call)
    requires Construct(call.req).Some? && IsValid(Construct(call.req).value)
    requires Latest(rows, Construct(call.req).value.name).Some?
    requires Compare(Latest(rows, Construct(call.req).value.name).value, Construct(call.req).value) == Same
    ensures Respond(rows, call) ==
            if call.queryOk then Existing(Latest(rows, Construct(call.req).value.name).value) else Refused
  {}

  lemma NewRowIsLatest(rows: seq<Template>, row: Template)
    requires Numbered(rows) && row.version == Count(rows, row.name) + 1
    ensures Latest(rows + [row], row.name) == Some(row)
  {
    assert (rows + [row])[..|rows|] == rows;
    LatestHasVersionCount(rows, row.name);
  }

  lemma AgreesWhenStored(t: Template, curr: Template)
    requires Filled(t) && t == curr.(version := t.version)
    ensures Compare(Persisted(t), curr) == Same
  {}

  /** A name already stored gets a new version exactly if the query and the insert work and the
      request has its flag and its GPU count and differs in a stored field; setting an environment
      where there was none, or dropping it, is not seen as a difference. */
  lemma NewVersionIff(rows: seq<Template>, call: Call)
    requires Numbered(rows) && Latest(rows, call.req.name).Some?
    ensures Respond(rows, call).Created? <==>
              && call.queryOk && call.insertOk && call.req.resources.adaptive.Some? && call.req.resources.gpu.Some?
              && IsValid(Construct(call.req).value)
              && !Agree(Latest(rows, call.req.name).value, Persisted(Construct(call.req).value))
  {
    LatestHasVersionCount(rows, call.req.name);
  }

  /** When the service panics: no adaptive flag, or no GPU count on a request for a stored name
      that agrees in the fields compared first. */
  lemma PanicsIff(rows: seq<Template>, call: Call)
    requires Numbered(rows)
    ensures Respond(rows, call) == Panicked <==>
              || call.req.resources.adaptive == None
              || (&& IsValid(Construct(call.req).value) && call.queryOk && call.req.resources.gpu == None
                  && Latest(rows, call.req.name).Some?
                  && var prev, asked := Latest(rows, call.req.name).value, call.req.resources;
                     && prev.command == call.req.command && prev.resources.image == asked.image
                     && prev.resources.memory == if asked.memory.Some? then asked.memory else Some(512))
  {
    LatestHasVersionCount(rows, call.req.name);
  }

  /** A request is rejected exactly if its name, schema, command or image is missing. */
  lemma RejectsIff(rows: seq<Template>, call: Call)
    ensures Respond(rows, call) == Malformed <==>
              && call.req.resources.adaptive.Some?
              && (call.req.name == "" || call.req.schema == map[] || call.req.command == "" || call.req.resources.image == "")
  {}

  /** The answer has what the request says, with 512 MB, 256 CPU units and no defaults where it says
      nothing; the new row has the same, but neither its ports nor its tags. */
  lemma NewRowIs(rows: seq<Template>, call: Call)
    requires Respond(rows, call).Created?
    ensures var req := call.req;
            var memory := if req.resources.memory.Some? then req.resources.memory else Some(512);
            var cpu := if req.resources.cpu.Some? then req.resources.cpu else Some(256);
            var defaults := if req.defaults.Some? then req.defaults.value else map[];
            var version := if Latest(rows, req.name) == None then 1 else Latest(rows, req.name).value.version + 1;
            var answer := Template(req.name, version, req.schema, req.command, defaults, req.avatar,
                                   req.resources.(memory := memory, cpu := cpu));
            && Respond(rows, call) == Created(answer)
            && Rows(rows, Respond(rows, call)) == rows + [answer.(resources := answer.resources.(ports := None, tags := None))]
  {}

  /** The INSERT has thirteen columns and fifteen values, so every insert fails as it is written, if
      the query before it, which selects a column that templates have no field for, has not failed
      already: then the table stays empty, and no request is ever answered with a template. */
  lemma {:induction false} NothingIsStoredAsWritten(calls: seq<Call>, call: Call)
    requires !(call.queryOk && call.insertOk) && forall i | 0 <= i < |calls| :: !(calls[i].queryOk && calls[i].insertOk)
    ensures AfterAll([], calls) == []
    ensures Respond(AfterAll([], calls), call) ==
              if Construct(call.req) == None then Panicked else if !IsValid(Construct(call.req).value) then Malformed else Refused
  {
    if calls != [] {
      NothingIsStoredAsWritten(calls[..|calls| - 1], calls[|calls| - 1]);
    }
  }
}
