/**
  Saving a managed DID route: two dialplan files, the FreePBX DID table and the
  route state change in order, and a failure on the way is compensated. Each step
  may fail, as the environment says.
 */
module RouteProvisioning {
  import opened Basics
  import opened Dialplan

  datatype Did = Did(cidnum: string, destination: string, description: string)

  function Destination(number: string): string { "from-ai-gateway-managed," + number + ",1" }

  /** The row of a number is one this bridge wrote, whatever its description. */
  predicate IsManaged(did: Did, number: string) {
    did.cidnum == "" && did.destination == Destination(number)
  }

  /** Everything a save can touch: two files, the DID table by number, and the stored route list. */
  datatype World = World(custom: Option<Contents>, managed: Option<Contents>, dids: map<string, Did>,
                         stored: Option<seq<Route>>)

  datatype Request = Request(id: string, number: string, description: string)

  datatype SaveError =
    | Unavailable
    | StateInvalid
    | RouteIdRemap
    | DidCollision
    | SaveFailed

  datatype Stage = Prepare | ReadFiles | WriteManaged | WriteCustom | StoreDid | ReadDid | SaveState | MarkReload

  /**
    What one save meets: the stages that fail, whether a failing DID write took effect
    all the same, whether another FreePBX route overlaps the number, and which of the
    recovery steps succeed.
   */
  datatype Env = Env(fails: set<Stage>, didWritten: bool, overlaps: bool, deletes: bool, restoresCustom: bool,
                     restoresManaged: bool)

  // ---------------------------------------------------------------- the route state

  predicate NoDuplicates(routes: seq<Route>) {
    DistinctBy(ById, routes) && DistinctBy(ByNumber, routes)
  }

  function Loaded(stored: Option<seq<Route>>): Result<seq<Route>, SaveError> {
    if stored.None? then Success([])
    else if NoDuplicates(stored.value) then Success(SortBy(ById, stored.value))
    else Failure(StateInvalid)
  }

  method Load(stored: Option<seq<Route>>) returns (r: Result<seq<Route>, SaveError>)
    ensures r == Loaded(stored)
  {
    hide SortBy;
    if stored.None? {
      return Success([]);
    }
    var decoded := stored.value;
    var routes: seq<Route>, ids: set<string>, numbers: set<string> := [], {}, {};
    for k := 0 to |decoded|
      invariant routes == decoded[..k]
      invariant forall x :: x in ids <==> exists i :: 0 <= i < k && decoded[i].id == x
      invariant forall x :: x in numbers <==> exists i :: 0 <= i < k && decoded[i].number == x
      invariant NoDuplicates(decoded[..k])
    {
      var route := decoded[k];
      if route.id in ids || route.number in numbers {
        return Failure(StateInvalid);
      }
      ids, numbers := ids + {route.id}, numbers + {route.number};
      routes := routes + [route];
    }
    assert decoded[..|decoded|] == decoded;
    r := Success(SortBy(ById, routes));
  }

  function Owned(routes: seq<Route>, id: string): Option<Route> {
    if routes == [] then None else if routes[0].id == id then Some(routes[0]) else Owned(routes[1..], id)
  }

  method OwnedRoute(routes: seq<Route>, id: string) returns (r: Option<Route>)
    ensures r == Owned(routes, id)
  {
    for k := 0 to |routes|
      invariant Owned(routes, id) == Owned(routes[k..], id)
    {
      assert routes[k..][1..] == routes[k + 1..];
      if routes[k].id == id {
        return Some(routes[k]);
      }
    }
    r := None;
  }

  // ----------------------------------------------------------------- a save, step by step

  /** What the checks before the first write settle. */
  datatype Plan = Plan(owned: bool, existing: bool, candidate: seq<Route>)

  function Planned(w: World, req: Request, env: Env): Result<Plan, SaveError> {
    if Prepare in env.fails then Failure(Unavailable)
    else
      var loaded := Loaded(w.stored);
      if loaded.Failure? then Failure(loaded.error)
      else
        var routes := loaded.value;
        var owned, existing := Owned(routes, req.id), req.number in w.dids;
        if owned.Some? && owned.value.number != req.number then Failure(RouteIdRemap)
        else if existing && (owned.None? || !IsManaged(w.dids[req.number], req.number)) then Failure(DidCollision)
        else if !existing && env.overlaps then Failure(DidCollision)
        else if ReadFiles in env.fails then Failure(Unavailable)
        else
          var candidate := if owned.None? then routes + [Route(req.id, req.number)] else routes;
          Success(Plan(owned.Some?, existing, candidate))
  }

  function Settings(req: Request): Did { Did("", Destination(req.number), req.description) }

  datatype Attempt = Attempt(world: World, done: bool)

  function WithFiles(w: World, plan: Plan): World {
    w.(managed := Some(Rendered(plan.candidate)), custom := Some(Ensured(OldCustom(w))))
  }

  function OldCustom(w: World): Contents { if w.custom.Some? then w.custom.value else [BLANK] }

  function WithDid(w: World, req: Request): World { w.(dids := w.dids[req.number := Settings(req)]) }

  function WithState(w: World, plan: Plan): World {
    if plan.owned then w else w.(stored := Some(SortBy(ById, plan.candidate)))
  }

  /** The writes, up to the first that fails. */
  function Attempted(w: World, req: Request, plan: Plan, env: Env): Attempt {
    if WriteManaged in env.fails then Attempt(w, false)
    else if WriteCustom in env.fails then Attempt(w.(managed := Some(Rendered(plan.candidate))), false)
    else
      var files := WithFiles(w, plan);
      var routed := WithDid(files, req);
      if StoreDid in env.fails then Attempt(if env.didWritten then routed else files, false)
      else if ReadDid in env.fails then Attempt(routed, false)
      else if SaveState in env.fails && !plan.owned then Attempt(routed, false)
      else Attempt(WithState(routed, plan), MarkReload !in env.fails)
  }

  /** Compensation after a failed write. */
  function Compensated(before: World, after: World, req: Request, plan: Plan, env: Env): World {
    after.(dids := if !plan.existing && env.deletes then after.dids - {req.number} else after.dids,
           custom := if env.restoresCustom then before.custom else after.custom,
           managed := if env.restoresManaged then before.managed else after.managed)
  }

  datatype SaveResult = SaveResult(world: World, reply: Result<Route, SaveError>)

  function Saved(w: World, req: Request, env: Env): SaveResult {
    var plan := Planned(w, req, env);
    if plan.Failure? then SaveResult(w, Failure(plan.error))
    else
      var a := Attempted(w, req, plan.value, env);
      if a.done then SaveResult(a.world, Success(Route(req.id, req.number)))
      else SaveResult(Compensated(w, a.world, req, plan.value, env), Failure(SaveFailed))
  }

  // ------------------------------------------------------------------------ readback

  /** What `apply` demands before it reloads. */
  predicate Readback(w: World, routes: seq<Route>) {
    if routes == [] && w.managed.None? && (w.custom.None? || !HasInclude(w.custom.value)) then true
    else
      && w.managed == Some(Rendered(routes))
      && w.custom.Some? && Ensured(w.custom.value) == w.custom.value
      && forall r | r in routes :: r.number in w.dids && IsManaged(w.dids[r.number], r.number)
  }

  /** The stored routes load, and the files and the DID table match them. */
  predicate Coherent(w: World) {
    Loaded(w.stored).Success? && Readback(w, Loaded(w.stored).value)
  }

  datatype ApplyOutcome =
    | ApplyUnavailable
    | ActiveCalls
    | RouteDrift
    | ReloadFailed
    | ApplyReadbackFailed
    | Applied(routes: seq<Route>)

  /** `shown` are the numbers the running dialplan lists exactly as managed. */
  datatype ApplyEnv = ApplyEnv(channels: nat, reloads: bool, shown: set<string>)

  function ApplyResult(w: World, env: ApplyEnv): ApplyOutcome {
    var loaded := Loaded(w.stored);
    if loaded.Failure? then ApplyUnavailable
    else if env.channels > 0 then ActiveCalls
    else if !Readback(w, loaded.value) then RouteDrift
    else if !env.reloads then ReloadFailed
    else if forall r | r in loaded.value :: r.number in env.shown then Applied(loaded.value)
    else ApplyReadbackFailed
  }

  class FreepbxDidService {
    var custom: Option<Contents>
    var managed: Option<Contents>
    var dids: map<string, Did>
    var stored: Option<seq<Route>>

    constructor (w: World)
      ensures State() == w
    {
      custom, managed, dids, stored := w.custom, w.managed, w.dids, w.stored;
    }

    function State(): World
      reads this
    {
      World(custom, managed, dids, stored)
    }

    method Save(req: Request, env: Env) returns (reply: Result<Route, SaveError>)
      modifies this
      ensures SaveResult(State(), reply) == Saved(old(State()), req, env)
    {
      hide SortBy, Rendered, Ensured, Loaded, Owned;
      if Prepare in env.fails {
        return Failure(Unavailable);
      }
      var loaded := Load(stored);
      if loaded.Failure? {
        return Failure(loaded.error);
      }
      var routes := loaded.value;
      var owned := OwnedRoute(routes, req.id);
      if owned.Some? && owned.value.number != req.number {
        return Failure(RouteIdRemap);
      }
      var existing := req.number in dids;
      if existing && (owned.None? || !IsManaged(dids[req.number], req.number)) {
        return Failure(DidCollision);
      }
      if !existing && env.overlaps {
        return Failure(DidCollision);
      }
      if ReadFiles in env.fails {
        return Failure(Unavailable);
      }
      var candidate := if owned.None? then routes + [Route(req.id, req.number)] else routes;
      var oldCustom, oldManaged := custom, managed;
      var done := Write(req, owned.Some?, candidate, env);
      if !done {
        if !existing && env.deletes {
          dids := dids - {req.number};
        }
        if env.restoresCustom {
          custom := oldCustom;
        }
        if env.restoresManaged {
          managed := oldManaged;
        }
        return Failure(SaveFailed);
      }
      reply := Success(Route(req.id, req.number));
    }

    /** The guarded part of a save, up to the first failure. */
    method Write(req: Request, owned: bool, candidate: seq<Route>, env: Env) returns (done: bool)
      modifies this
      ensures forall existing ::
                Attempt(State(), done) == Attempted(old(State()), req, Plan(owned, existing, candidate), env)
    {
      hide SortBy, Rendered, Ensured;
      if WriteManaged in env.fails {
        return false;
      }
      var rendered := Render(candidate);
      managed := Some(rendered);
      if WriteCustom in env.fails {
        return false;
      }
      var ensured := EnsureInclude(if custom.Some? then custom.value else [BLANK]);
      custom := Some(ensured);
      if StoreDid !in env.fails || env.didWritten {
        dids := dids[req.number := Settings(req)];
      }
      if StoreDid in env.fails || ReadDid in env.fails {
        return false;
      }
      if !owned {
        if SaveState in env.fails {
          return false;
        }
        stored := Some(SortBy(ById, candidate));
      }
      done := MarkReload !in env.fails;
    }

    method Apply(env: ApplyEnv) returns (outcome: ApplyOutcome)
      ensures outcome == ApplyResult(State(), env)
    {
      hide Loaded, Readback;
      var loaded := Load(stored);
      if loaded.Failure? {
        return ApplyUnavailable;
      }
      if env.channels > 0 {
        return ActiveCalls;
      }
      var matches := ReadsBack(loaded.value);
      if !matches {
        return RouteDrift;
      }
      if !env.reloads {
        return ReloadFailed;
      }
      var shown := AllShown(loaded.value, env.shown);
      outcome := if shown then Applied(loaded.value) else ApplyReadbackFailed;
    }

    static method AllShown(routes: seq<Route>, shown: set<string>) returns (all: bool)
      ensures all <==> forall r | r in routes :: r.number in shown
    {
      for k := 0 to |routes|
        invariant forall r | r in routes[..k] :: r.number in shown
      {
        assert routes[k] in routes;
        if routes[k].number !in shown {
          return false;
        }
      }
      all := true;
    }

    method ReadsBack(routes: seq<Route>) returns (matches: bool)
      ensures matches <==> Readback(State(), routes)
    {
      hide HasInclude, Rendered, Ensured, IsManaged;
      if routes == [] && managed.None? && (custom.None? || !HasInclude(custom.value)) {
        return true;
      }
      var rendered := Render(routes);
      if managed != Some(rendered) || custom.None? {
        return false;
      }
      var ensured := EnsureInclude(custom.value);
      if ensured != custom.value {
        return false;
      }
      for k := 0 to |routes|
        invariant forall r | r in routes[..k] :: r.number in dids && IsManaged(dids[r.number], r.number)
      {
        assert routes[k] in routes;
        if routes[k].number !in dids || !IsManaged(dids[routes[k].number], routes[k].number) {
          return false;
        }
      }
      matches := true;
    }
  }

  // ------------------------------------------------------------- failure leaves no trace

  /** Recovery succeeds, and nothing failed after the route state was written. */
  predicate Recovers(env: Env) {
    env.deletes && env.restoresCustom && env.restoresManaged && MarkReload !in env.fails
  }

  /** As found, except possibly the description of a number already managed. */
  predicate AsFound(before: World, after: World, number: string) {
    && after.custom == before.custom && after.managed == before.managed && after.stored == before.stored
    && after.dids.Keys == before.dids.Keys
    && (forall n | n in before.dids && n != number :: after.dids[n] == before.dids[n])
    && (number in before.dids && after.dids[number] != before.dids[number] ==>
        && IsManaged(before.dids[number], number)
        && after.dids[number] == before.dids[number].(description := after.dids[number].description))
  }

  /** A save that fails at any stage up to writing the route state leaves everything as found. */
  lemma FailedSaveLeavesAsFound(w: World, req: Request, env: Env)
    requires Recovers(env) && Saved(w, req, env).reply.Failure?
    ensures AsFound(w, Saved(w, req, env).world, req.number)
  {
    hide SortBy, Rendered, Ensured, Loaded, Owned;
  }

  /**
    When only the final mark fails, the files and the DID table go back but the new
    route stays in the state: the failed save leaves things as found exactly if the
    route was already owned.
   */
  lemma MarkFailureLeavesAsFoundIff(w: World, req: Request, env: Env)
    requires Planned(w, req, env).Success? && env.fails == {MarkReload}
    requires env.deletes && env.restoresCustom && env.restoresManaged
    ensures Saved(w, req, env).reply == Failure(SaveFailed)
    ensures AsFound(w, Saved(w, req, env).world, req.number) <==> Owned(Loaded(w.stored).value, req.id).Some?
  {
    hide Rendered, Ensured, Owned, Loaded, SortBy;
    var plan := Planned(w, req, env).value;
    if !plan.owned {
      StoredGrows(w.stored, Route(req.id, req.number));
    }
  }

  /** A concrete case: the first route of a fresh bridge is saved, and only marking the reload fails. */
  lemma MarkFailureKeepsARoute()
    ensures var w, req := World(None, None, map[], None), Request("a", "100", "first");
            var env := Env({MarkReload}, false, false, true, true, true);
            && Saved(w, req, env).reply == Failure(SaveFailed)
            && Saved(w, req, env).world.stored == Some([Route("a", "100")])
            && !AsFound(w, Saved(w, req, env).world, "100")
  {
    var w, req := World(None, None, map[], None), Request("a", "100", "first");
    var env := Env({MarkReload}, false, false, true, true, true);
    FreshPlan(req);
    OneRouteSorts(Route("a", "100"));
    hide Planned, SortBy, Rendered, Ensured, Loaded, Owned;
    MarkFailureLeavesAsFoundIff(w, req, env);
  }

  lemma FreshPlan(req: Request)
    ensures var w := World(None, None, map[], None);
            && Loaded(w.stored) == Success([]) && Owned([], req.id).None?
            && Planned(w, req, Env({MarkReload}, false, false, true, true, true))
               == Success(Plan(false, false, [Route(req.id, req.number)]))
  {
    assert [] + [Route(req.id, req.number)] == [Route(req.id, req.number)];
  }

  lemma OneRouteSorts(r: Route)
    ensures SortBy(ById, [r]) == [r]
  {
    assert [r][1..] == [];
  }

  lemma StoredGrows(stored: Option<seq<Route>>, r: Route)
    requires Loaded(stored).Success?
    ensures Some(SortBy(ById, Loaded(stored).value + [r])) != stored
  {
    hide SortBy;
    SortSorts(ById, Loaded(stored).value + [r]);
    if stored.Some? {
      SortSorts(ById, stored.value);
    }
  }

  // ----------------------------------------------------------- what a save answers, and when

  /** The stored routes as they stand in the file. */
  function Listed(w: World): seq<Route> { if w.stored.Some? then w.stored.value else [] }

  /** Two routes of the file share an id or a number. */
  predicate Repeats(routes: seq<Route>) {
    exists i, j :: 0 <= i < j < |routes| && (routes[i].id == routes[j].id || routes[i].number == routes[j].number)
  }

  /** The id is listed with another number. */
  predicate Remaps(w: World, req: Request) {
    exists r :: r in Listed(w) && r.id == req.id && r.number != req.number
  }

  /** The id is listed with this very number, whose DID row, if any, is the one this bridge writes. */
  predicate SavedBefore(w: World, req: Request) {
    && Route(req.id, req.number) in Listed(w)
    && (req.number in w.dids ==>
          && w.dids[req.number].cidnum == ""
          && w.dids[req.number].destination == "from-ai-gateway-managed," + req.number + ",1")
  }

  /** The id is not listed, and the number has no DID row. */
  predicate NotYetSaved(w: World, req: Request) {
    (forall r | r in Listed(w) :: r.id != req.id) && req.number !in w.dids
  }

  /** The number can be given to the route: its row is there already, or no FreePBX route overlaps it. */
  predicate MayHave(w: World, req: Request, env: Env) {
    (SavedBefore(w, req) || NotYetSaved(w, req)) && (req.number in w.dids || !env.overlaps)
  }

  /** A write that the save needs fails. */
  predicate WriteFails(w: World, req: Request, env: Env) {
    || WriteManaged in env.fails || WriteCustom in env.fails || StoreDid in env.fails || ReadDid in env.fails
    || MarkReload in env.fails
    || (SaveState in env.fails && forall r | r in Listed(w) :: r.id != req.id)
  }

  lemma {:induction false} OwnedIsListed(routes: seq<Route>, id: string)
    ensures var o := Owned(routes, id);
            if o.Some? then o.value in routes && o.value.id == id else forall r | r in routes :: r.id != id
  {
    if routes != [] {
      OwnedIsListed(routes[1..], id);
    }
  }

  lemma LoadsIffNothingRepeats(w: World)
    ensures Loaded(w.stored).Failure? <==> Repeats(Listed(w))
    ensures Loaded(w.stored).Failure? ==> Loaded(w.stored).error == StateInvalid
    ensures Loaded(w.stored).Success? ==> SameRoutes(Loaded(w.stored).value, Listed(w))
  {
    SortSorts(ById, Listed(w));
    hide SortBy;
    var routes := Listed(w);
    assert forall i | 0 <= i < |routes| :: KeyOf(ById, routes[i]) == routes[i].id;
    assert forall i | 0 <= i < |routes| :: KeyOf(ByNumber, routes[i]) == routes[i].number;
    if !Repeats(routes) {
      assert DistinctBy(ById, routes) && DistinctBy(ByNumber, routes);
    }
  }

  lemma ListedOnce(routes: seq<Route>, r: Route, s: Route)
    requires !Repeats(routes) && r in routes && s in routes && r.id == s.id
    ensures r == s
  {
    var i :| 0 <= i < |routes| && routes[i] == r;
    var j :| 0 <= j < |routes| && routes[j] == s;
  }

  /** What the owner of an id means for the checks. */
  lemma OwnerDecides(w: World, req: Request)
    requires !Repeats(Listed(w))
    ensures var owned := Owned(Loaded(w.stored).value, req.id);
            && (owned.None? <==> forall r | r in Listed(w) :: r.id != req.id)
            && (owned.Some? && owned.value.number != req.number <==> Remaps(w, req))
            && (owned.Some? && owned.value.number == req.number <==> Route(req.id, req.number) in Listed(w))
  {
    LoadsIffNothingRepeats(w);
    OwnedIsListed(Loaded(w.stored).value, req.id);
    hide Loaded, Owned, Repeats;
    var owned := Owned(Loaded(w.stored).value, req.id);
    forall r | r in Listed(w) && owned.Some? && r.id == req.id
      ensures r == owned.value
    {
      ListedOnce(Listed(w), r, owned.value);
    }
  }

  /** The checks before the first write. */
  lemma ChecksAnswer(w: World, req: Request, env: Env)
    ensures var plan := Planned(w, req, env);
            && (plan.Success? ==> (plan.value.owned <==> exists r :: r in Listed(w) && r.id == req.id))
            && if Prepare in env.fails then plan == Failure(Unavailable)
               else if Repeats(Listed(w)) then plan == Failure(StateInvalid)
               else if Remaps(w, req) then plan == Failure(RouteIdRemap)
               else if !MayHave(w, req, env) then plan == Failure(DidCollision)
               else if ReadFiles in env.fails then plan == Failure(Unavailable)
               else plan.Success?
  {
    LoadsIffNothingRepeats(w);
    if !Repeats(Listed(w)) {
      OwnerDecides(w, req);
    }
    hide Loaded, Owned, SortBy, Rendered, Ensured, Listed, Repeats, Remaps;
  }

  /** Every answer of a save with its exact condition, and what a refusal leaves. */
  lemma SaveAnswers(w: World, req: Request, env: Env)
    ensures var r := Saved(w, req, env);
            r.reply ==
              if Prepare in env.fails then Failure(Unavailable)
              else if Repeats(Listed(w)) then Failure(StateInvalid)
              else if Remaps(w, req) then Failure(RouteIdRemap)
              else if !MayHave(w, req, env) then Failure(DidCollision)
              else if ReadFiles in env.fails then Failure(Unavailable)
              else if WriteFails(w, req, env) then Failure(SaveFailed)
              else Success(Route(req.id, req.number))
    ensures var r := Saved(w, req, env);
            r.reply.Failure? && r.reply.error != SaveFailed ==> r.world == w
  {
    ChecksAnswer(w, req, env);
    hide Planned, MayHave, SortBy, Rendered, Ensured, Listed, Repeats, Remaps, Compensated;
  }

  lemma LoadedIsSorted(stored: Option<seq<Route>>)
    requires Loaded(stored).Success?
    ensures var routes := Loaded(stored).value;
            NoDuplicates(routes) && SortBy(ById, routes) == routes && Loaded(Some(routes)) == Success(routes)
  {
    if stored.Some? {
      SavedRoutesReload(stored.value);
    }
  }

  /** What is saved is what loads: sorted routes without repetitions sort to themselves. */
  lemma SavedRoutesReload(routes: seq<Route>)
    requires NoDuplicates(routes)
    ensures var sorted := SortBy(ById, routes);
            NoDuplicates(sorted) && SortBy(ById, sorted) == sorted && Loaded(Some(sorted)) == Success(sorted)
  {
    hide SortBy, DistinctBy;
    SortKeepsDistinct(ById, ById, routes);
    SortKeepsDistinct(ById, ByNumber, routes);
    SortSorts(ById, routes);
    SortIgnoresOrder(ById, SortBy(ById, routes), routes);
  }

  lemma SavedFiles(w: World, req: Request, env: Env)
    requires Saved(w, req, env).reply.Success?
    ensures var plan, after := Planned(w, req, env), Saved(w, req, env).world;
            && plan.Success?
            && after.managed == Some(Rendered(plan.value.candidate)) && after.custom == Some(Ensured(OldCustom(w)))
            && after.stored == (if plan.value.owned then w.stored else Some(SortBy(ById, plan.value.candidate)))
            && (plan.value.owned ==> Loaded(w.stored) == Success(plan.value.candidate))
            && (plan.value.owned <==> Owned(Loaded(w.stored).value, req.id).Some?)
            && (!plan.value.owned ==> plan.value.candidate == Loaded(w.stored).value + [Route(req.id, req.number)])
            && (plan.value.owned ==> Owned(Loaded(w.stored).value, req.id).value.number == req.number)
  {
    hide SortBy, Rendered, Ensured, Loaded, Owned;
  }

  /** A successful save writes the row of this number, and no other, and includes the managed file. */
  lemma SuccessfulSaveSetsTheDid(w: World, req: Request, env: Env)
    requires Saved(w, req, env).reply.Success?
    ensures var after := Saved(w, req, env).world;
            && after.dids
               == w.dids[req.number := Did("", "from-ai-gateway-managed," + req.number + ",1", req.description)]
            && after.custom == Some(Ensured(if w.custom.Some? then w.custom.value else [BLANK]))
  {
    hide SortBy, Rendered, Ensured, Owned, Loaded;
  }

  /** The routes that a successful save renders and stores. */
  lemma SavedCandidate(w: World, req: Request, env: Env)
    requires Planned(w, req, env).Success?
    ensures var plan, listed, route := Planned(w, req, env).value, Listed(w), Route(req.id, req.number);
            && (plan.owned <==> route in listed)
            && |plan.candidate| == (if plan.owned then |listed| else |listed| + 1)
            && SameRoutes(plan.candidate, if plan.owned then listed else listed + [route])
  {
    ChecksAnswer(w, req, env);
    LoadsIffNothingRepeats(w);
    OwnerDecides(w, req);
    SortSorts(ById, Listed(w));
    PlanOf(w, req, env);
    hide SortBy, Owned, Repeats, Planned, MayHave, Remaps, DistinctBy, Ascending, NoDuplicates;
    var plan := Planned(w, req, env).value;
    if !plan.owned {
      assert forall r :: r in plan.candidate <==> r in Loaded(w.stored).value || r == Route(req.id, req.number);
    }
  }

  lemma PlanOf(w: World, req: Request, env: Env)
    requires Planned(w, req, env).Success?
    ensures var plan, routes := Planned(w, req, env).value, Loaded(w.stored).value;
            && Loaded(w.stored).Success?
            && plan.owned == Owned(routes, req.id).Some?
            && (plan.owned ==> Owned(routes, req.id).value.number == req.number)
            && plan.candidate == if plan.owned then routes else routes + [Route(req.id, req.number)]
  {
    hide Loaded, Owned;
  }

  /** It lists the route beside those listed before, and renders just what it lists. */
  lemma SuccessfulSaveListsTheRoute(w: World, req: Request, env: Env) returns (routes: seq<Route>)
    requires Saved(w, req, env).reply.Success?
    ensures var after := Saved(w, req, env).world;
            && SameRoutes(Listed(after), Listed(w) + [Route(req.id, req.number)])
            && (Route(req.id, req.number) in Listed(w) ==> after.stored == w.stored)
            && (Route(req.id, req.number) !in Listed(w) ==> |Listed(after)| == |Listed(w)| + 1)
            && SameRoutes(routes, Listed(after)) && |routes| == |Listed(after)|
            && after.managed == Some(Rendered(routes))
  {
    SavedFiles(w, req, env);
    SavedCandidate(w, req, env);
    routes := Planned(w, req, env).value.candidate;
    SortSorts(ById, routes);
    hide Saved, SortBy, Rendered, Ensured, Owned, Planned, DistinctBy, Ascending, Loaded;
  }

  /** Both files were written. */
  predicate FilesWritten(env: Env) { WriteManaged !in env.fails && WriteCustom !in env.fails }

  /** The row of the number was written, whether or not FreePBX said so. */
  predicate RowWritten(env: Env) { FilesWritten(env) && (StoreDid !in env.fails || env.didWritten) }

  /** How far the writes have come. */
  lemma WritesTouch(w: World, req: Request, plan: Plan, env: Env)
    ensures var after := Attempted(w, req, plan, env).world;
            && after.custom == (if FilesWritten(env) then Some(Ensured(OldCustom(w))) else w.custom)
            && after.managed == (if WriteManaged in env.fails then w.managed else Some(Rendered(plan.candidate)))
            && after.dids == (if RowWritten(env) then w.dids[req.number := Settings(req)] else w.dids)
            && (MarkReload !in env.fails && !Attempted(w, req, plan, env).done ==> after.stored == w.stored)
  {
    hide SortBy, Rendered, Ensured;
  }

  /**
    After a failed write each recovery step acts for itself: what it covers is as found if
    the step succeeds, and otherwise as the writes left it.
   */
  lemma EachRecoveryActsAlone(w: World, req: Request, env: Env)
    requires Saved(w, req, env).reply == Failure(SaveFailed)
    ensures var after := Saved(w, req, env).world;
            var row := Did("", "from-ai-gateway-managed," + req.number + ",1", req.description);
            && after.custom
               == (if env.restoresCustom || !FilesWritten(env) then w.custom else Some(Ensured(OldCustom(w))))
            && (env.restoresManaged || WriteManaged in env.fails ==> after.managed == w.managed)
            && (!env.restoresManaged && WriteManaged !in env.fails ==> after.managed.Some?)
            && after.dids == (if !RowWritten(env) || (req.number !in w.dids && env.deletes) then w.dids
                              else w.dids[req.number := row])
            && (MarkReload !in env.fails ==> after.stored == w.stored)
  {
    PlanKnowsTheRow(w, req, env);
    hide Planned;
    if Planned(w, req, env).Success? {
      WritesTouch(w, req, Planned(w, req, env).value, env);
    }
    hide Attempted, Ensured, Rendered, OldCustom, FilesWritten, RowWritten;
  }

  lemma PlanKnowsTheRow(w: World, req: Request, env: Env)
    ensures var plan := Planned(w, req, env);
            && (plan.Success? ==> plan.value.existing == (req.number in w.dids))
            && (plan.Failure? ==> plan.error != SaveFailed)
  {
    hide Loaded, Owned;
    LoadsIffNothingRepeats(w);
  }

  // -------------------------------------------------------------- what apply answers, and when

  /** Nothing was ever saved, or both files and every listed DID are what the listed routes call for. */
  predicate InStep(w: World) {
    || (Listed(w) == [] && w.managed.None? && (w.custom.None? || forall l | l in w.custom.value :: l.Other?))
    || (&& w.managed == Some(Rendered(Listed(w)))
        && w.custom.Some? && InOrder(w.custom.value)
        && forall r | r in Listed(w) ::
             && r.number in w.dids && w.dids[r.number].cidnum == ""
             && w.dids[r.number].destination == "from-ai-gateway-managed," + r.number + ",1")
  }

  lemma ReadbackIffInStep(w: World)
    requires !Repeats(Listed(w))
    ensures Readback(w, Loaded(w.stored).value) <==> InStep(w)
  {
    LoadsIffNothingRepeats(w);
    var routes := Loaded(w.stored).value;
    LoadedIsSorted(w.stored);
    SortSorts(ById, Listed(w));
    assert DistinctBy(ByNumber, Listed(w));
    RenderIgnoresOrder(routes, Listed(w));
    if w.custom.Some? {
      EnsuredIsFixpointIff(w.custom.value);
      assert !HasInclude(w.custom.value) <==> forall l | l in w.custom.value :: l.Other?;
    }
    hide SortBy, Rendered, Ensured, InOrder, Loaded, Repeats, HasInclude;
  }

  /** Every answer of `apply` with its exact condition; what it applies is what is listed. */
  lemma ApplyAnswers(w: World, env: ApplyEnv)
    ensures var outcome := ApplyResult(w, env);
            if Repeats(Listed(w)) then outcome == ApplyUnavailable
            else if env.channels > 0 then outcome == ActiveCalls
            else if !InStep(w) then outcome == RouteDrift
            else if !env.reloads then outcome == ReloadFailed
            else if exists r :: r in Listed(w) && r.number !in env.shown then outcome == ApplyReadbackFailed
            else outcome.Applied? && SameRoutes(outcome.routes, Listed(w)) && |outcome.routes| == |Listed(w)|
  {
    LoadsIffNothingRepeats(w);
    SortSorts(ById, Listed(w));
    if !Repeats(Listed(w)) {
      ReadbackIffInStep(w);
    }
    hide SortBy, Readback, InStep, Repeats, NoDuplicates;
  }

  // ------------------------------------------------------- success keeps what apply needs

  /** The candidate list of a save from a coherent world repeats no id and no number. */
  lemma CandidateHasNoDuplicates(w: World, req: Request, env: Env)
    requires Coherent(w) && Planned(w, req, env).Success?
    ensures NoDuplicates(Planned(w, req, env).value.candidate)
  {
    var routes, plan := Loaded(w.stored).value, Planned(w, req, env).value;
    LoadedIsSorted(w.stored);
    OwnedIsListed(routes, req.id);
    hide SortBy, Rendered, Ensured, Loaded, Owned, IsManaged;
    if !plan.owned {
      assert forall r | r in routes :: r.number != req.number;
      DistinctSnoc(routes, Route(req.id, req.number));
    }
  }

  lemma DistinctSnoc(routes: seq<Route>, r: Route)
    requires NoDuplicates(routes) && forall s | s in routes :: s.id != r.id && s.number != r.number
    ensures NoDuplicates(routes + [r])
  {}

  lemma SavedRoutes(w: World, req: Request, env: Env)
    requires Coherent(w) && Saved(w, req, env).reply.Success?
    ensures var candidate, reloaded := Planned(w, req, env).value.candidate, Loaded(Saved(w, req, env).world.stored);
            && reloaded.Success? && NoDuplicates(reloaded.value) && SameRoutes(reloaded.value, candidate)
            && NoDuplicates(candidate) && Route(req.id, req.number) in candidate
  {
    CandidateHasNoDuplicates(w, req, env);
    SavedFiles(w, req, env);
    LoadedIsSorted(w.stored);
    OwnedIsListed(Loaded(w.stored).value, req.id);
    hide SortBy, Rendered, Ensured, Owned, Saved, Planned, Loaded, Readback;
    var plan := Planned(w, req, env).value;
    if !plan.owned {
      SavedRoutesReload(plan.candidate);
      SortSorts(ById, plan.candidate);
      assert Route(req.id, req.number) in plan.candidate;
    }
  }

  /** A successful save from a coherent world leads to a coherent one, and the new route is listed. */
  lemma SuccessfulSaveIsCoherent(w: World, req: Request, env: Env)
    requires Coherent(w) && Saved(w, req, env).reply.Success?
    ensures var after := Saved(w, req, env).world;
            Coherent(after) && Route(req.id, req.number) in Loaded(after.stored).value
  {
    SavedRoutes(w, req, env);
    SavedFiles(w, req, env);
    RoutesStayManaged(w, req, env);
    EnsuredIsFixpointIff(OldCustom(w));
    hide SortBy, Rendered, Ensured, Owned, Saved, Planned, Loaded, IsManaged, HasInclude;
    var candidate, reloaded := Planned(w, req, env).value.candidate, Loaded(Saved(w, req, env).world.stored).value;
    RenderIgnoresOrder(reloaded, candidate);
  }

  lemma RoutesStayManaged(w: World, req: Request, env: Env)
    requires Coherent(w) && Saved(w, req, env).reply.Success?
    ensures var dids := Saved(w, req, env).world.dids;
            forall r | r in Planned(w, req, env).value.candidate ::
              r.number in dids && IsManaged(dids[r.number], r.number)
  {
    hide SortBy, Rendered, Ensured, Loaded, Owned;
  }

  /** Only a description may differ, so what was coherent still is. */
  lemma AsFoundStaysCoherent(before: World, after: World, number: string)
    requires Coherent(before) && AsFound(before, after, number)
    ensures Coherent(after)
  {
    hide SortBy, Rendered, Ensured, Loaded, HasInclude;
  }

  datatype SaveOp = SaveOp(req: Request, env: Env)

  function Run(w: World, ops: seq<SaveOp>): World
    decreases |ops|
  {
    if ops == [] then w else Run(Saved(w, ops[0].req, ops[0].env).world, ops[1..])
  }

  /** Every save of the run either succeeds or recovers. */
  predicate Tame(w: World, ops: seq<SaveOp>)
    decreases |ops|
  {
    ops == [] ||
    var r := Saved(w, ops[0].req, ops[0].env);
    (r.reply.Success? || Recovers(ops[0].env)) && Tame(r.world, ops[1..])
  }

  /** Before the first save: no managed file, no include line, no routes. */
  lemma FreshWorldIsCoherent(w: World)
    requires w.managed.None? && w.stored.None? && (w.custom.Some? ==> !HasInclude(w.custom.value))
    ensures Coherent(w)
  {}

  /** Any run of saves keeps the stored routes loadable and in agreement with the files and the DID table. */
  lemma {:induction false} RunStaysCoherent(w: World, ops: seq<SaveOp>)
    requires Coherent(w) && Tame(w, ops)
    ensures Coherent(Run(w, ops))
    decreases |ops|
  {
    hide Coherent, Saved, AsFound, Recovers;
    if ops != [] {
      var op := ops[0];
      var r := Saved(w, op.req, op.env);
      if r.reply.Success? {
        SuccessfulSaveIsCoherent(w, op.req, op.env);
      } else {
        FailedSaveLeavesAsFound(w, op.req, op.env);
        AsFoundStaysCoherent(w, r.world, op.req.number);
      }
      RunStaysCoherent(r.world, ops[1..]);
    }
  }

  /** So `apply` never refuses on drift or unreadable state after any run of saves. */
  lemma ApplyNeverDrifts(w: World, ops: seq<SaveOp>, env: ApplyEnv)
    requires Coherent(w) && Tame(w, ops)
    ensures var after := Run(w, ops);
            && Loaded(after.stored).Success? && NoDuplicates(Loaded(after.stored).value)
            && ApplyResult(after, env) != RouteDrift && ApplyResult(after, env) != ApplyUnavailable
  {
    RunStaysCoherent(w, ops);
    LoadedIsSorted(Run(w, ops).stored);
    hide Loaded, Readback, Run, Tame, NoDuplicates;
  }

  // ------------------------------------------------------------ and where it does not hold

  predicate Lists(routes: seq<Route>, number: string) { exists r :: r in routes && r.number == number }

  /**
    Without coherence a successful save leaves a state that still loads exactly when
    the route was already owned or no listed route has the number: a number that is
    listed but gone from the DID table gets saved a second time.
   */
  lemma SavedStateLoadsIff(w: World, req: Request, env: Env)
    requires Saved(w, req, env).reply.Success?
    ensures var routes := Loaded(w.stored).value;
            Loaded(Saved(w, req, env).world.stored).Success? <==>
              Owned(routes, req.id).Some? || !Lists(routes, req.number)
  {
    SavedFiles(w, req, env);
    var routes, r := Loaded(w.stored).value, Route(req.id, req.number);
    LoadedIsSorted(w.stored);
    OwnedIsListed(routes, req.id);
    hide SortBy, Rendered, Ensured, Owned, Saved, Planned;
    if Owned(routes, req.id).None? {
      if Lists(routes, req.number) {
        DuplicateNumberStays(routes, r);
      } else {
        DistinctSnoc(routes, r);
        SavedRoutesReload(routes + [r]);
      }
    }
  }

  lemma DuplicateNumberStays(routes: seq<Route>, r: Route)
    requires Lists(routes, r.number) && forall s | s in routes :: s.id != r.id
    ensures !NoDuplicates(SortBy(ById, routes + [r]))
  {
    hide SortBy;
    var sorted := SortBy(ById, routes + [r]);
    SortSorts(ById, routes + [r]);
    var other :| other in routes && other.number == r.number;
    assert other in sorted && r in sorted;
    var i :| 0 <= i < |sorted| && sorted[i] == other;
    var j :| 0 <= j < |sorted| && sorted[j] == r;
    assert i != j && KeyOf(ByNumber, sorted[i]) == KeyOf(ByNumber, sorted[j]);
  }

  /** A concrete case: the DID of a stored route was deleted in FreePBX, and its number is saved again. */
  lemma DriftedDidIsSavedTwice()
    ensures var w := World(None, None, map[], Some([Route("a", "100")]));
            var env := Env({}, false, false, true, true, true);
            var r := Saved(w, Request("b", "100", "again"), env);
            r.reply.Success? && Loaded(r.world.stored) == Failure(StateInvalid)
  {
    var w, req := World(None, None, map[], Some([Route("a", "100")])), Request("b", "100", "again");
    var env := Env({}, false, false, true, true, true);
    var routes := [Route("a", "100")];
    assert SortBy(ById, routes) == routes by {
      assert routes[1..] == [];
    }
    OwnedIsListed(routes, "b");
    assert Owned(routes, "b").None?;
    assert routes[0] in routes && Lists(routes, "100");
    hide SortBy, Rendered, Ensured, Owned;
    SavedStateLoadsIff(w, req, env);
  }
}
