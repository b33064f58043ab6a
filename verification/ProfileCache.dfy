/**
 The runtime profile cache: any number of callers of `ensure_profile_loaded`, the lock that lets one of
 them load, the admin's invalidation and the settings that change underneath.

 One step per stretch of code between two suspension points. `Step` is the specification; the class
 at the end performs the steps in place.
 */
module ProfileCache {
  import opened Options

  /** Sixty seconds on a monotonic clock of microseconds. */
  const TTL: nat := 60_000_000
  const DEFAULT_CTX: int := 32_000

  datatype Kind = Local | Cloud

  /** The stored context length: absent, not a number, or a number. */
  datatype Context = Absent | Malformed | Known(length: int)

  datatype Settings = Settings(kind: Kind, context: Context, model: Option<string>)

  datatype Profile = Profile(kind: Kind, context: int, model: Option<string>)

  datatype Request = Request(model: Option<string>, client: bool, ladderAllowed: bool)

  /** What probing would find: a model name and length from the endpoint, and the ladder's result if it does not raise. */
  datatype Probe = Probe(model: Option<string>, context: Option<int>, ladder: Option<int>)

  // ----- resolving a profile -----

  predicate Truthy(s: Option<string>) { s.Some? && s.value != "" }

  function Or(a: Option<string>, b: Option<string>): Option<string> { if Truthy(a) then a else b }

  datatype Resolved = Resolved(profile: Profile, saveContext: Option<int>, saveModel: Option<string>)

  /** The stored length and name are taken together, and only for the requested model. */
  predicate StoredFits(context: Context, stored: Option<string>, req: Request) {
    context.Known? && Truthy(stored) && stored == Or(req.model, stored)
  }

  predicate NeedsProbe(kind: Kind, context: Context, stored: Option<string>, req: Request) {
    req.client && kind == Local && (!StoredFits(context, stored, req) || (Truthy(req.model) && stored != req.model))
  }

  function Resolve(kind: Kind, context: Context, stored: Option<string>, req: Request, probe: Probe): Resolved {
    var usable := StoredFits(context, stored, req);
    var ctx0, name0 := if usable then Some(context.length) else None, if usable then stored else None;
    if NeedsProbe(kind, context, stored, req) then
      var name := Or(probe.model, name0);
      var ctx1 := if probe.context.Some? && probe.context.value != 0 then probe.context else ctx0;
      var ctx := if ctx1.None? && req.ladderAllowed && Truthy(Or(name, req.model))
                 then Some(if probe.ladder.Some? then probe.ladder.value else DEFAULT_CTX)
                 else ctx1;
      Resolved(Profile(kind, if ctx.Some? then ctx.value else DEFAULT_CTX, Or(name, req.model)),
               ctx, if Truthy(name) then name else None)
    else Resolved(Profile(kind, if ctx0.Some? then ctx0.value else DEFAULT_CTX, Or(name0, req.model)), None, None)
  }

  /** A model that has a name. */
  ghost predicate Named(m: Option<string>) { m.Some? && |m.value| > 0 }

  /** A length and a name are stored, and a request for a model by name is for that one. */
  ghost predicate Settled(context: Context, stored: Option<string>, req: Request) {
    context.Known? && Named(stored) && (Named(req.model) ==> stored == req.model)
  }

  /** A probe is made exactly for a local model, with a client at hand, while nothing is settled for the request. */
  lemma ProbesIff(kind: Kind, context: Context, stored: Option<string>, req: Request)
    ensures StoredFits(context, stored, req) <==> Settled(context, stored, req)
    ensures NeedsProbe(kind, context, stored, req) <==> req.client && kind == Local && !Settled(context, stored, req)
  {}

  /**
   Where a served profile comes from: the kind as read, and the stored length for the requested model unless a
   probe is needed; then what the endpoint reports wins, and the ladder is the last resort.
   */
  lemma ResolvedFrom(kind: Kind, context: Context, stored: Option<string>, req: Request, probe: Probe)
    ensures var r := Resolve(kind, context, stored, req, probe);
            && r.profile.kind == kind
            && (!(req.client && kind == Local) || Settled(context, stored, req) ==>
                  && r.saveContext.None? && r.saveModel.None?
                  && (Settled(context, stored, req) ==> context == Known(r.profile.context) && stored == r.profile.model)
                  && (!Settled(context, stored, req) ==> r.profile.context == 32_000 && r.profile.model == req.model))
            && (req.client && kind == Local && !Settled(context, stored, req) ==>
                  && (probe.context.Some? && probe.context.value != 0 ==> r.profile.context == probe.context.value)
                  && (r.profile.model == if Named(probe.model) then probe.model else req.model)
                  && (r.saveModel == if Named(probe.model) then probe.model else None)
                  && (r.saveContext.Some? ==> r.saveContext.value == r.profile.context)
                  && (r.saveContext.None? ==> r.profile.context == 32_000)
                  && (r.saveContext.None? <==> (probe.context == None || probe.context == Some(0))
                                               && !(req.ladderAllowed && (Named(probe.model) || Named(req.model)))))
  {
    ProbesIff(kind, context, stored, req);
  }

  /** The ladder is climbed only where it is allowed, for a named model, when nothing else tells the length; failing it leaves the default. */
  lemma LadderOnly(kind: Kind, context: Context, stored: Option<string>, req: Request, probe: Probe)
    requires req.client && kind == Local && !Settled(context, stored, req)
    requires probe.context == None || probe.context == Some(0)
    ensures var climbs := req.ladderAllowed && (Named(probe.model) || Named(req.model));
            Resolve(kind, context, stored, req, probe).profile.context == if climbs && probe.ladder.Some? then probe.ladder.value else 32_000
  {
    ProbesIff(kind, context, stored, req);
  }

  /**
   What a probe finds is stored so that the next load need not probe, unless the endpoint goes by another name
   than the one requested; and then it serves the same profile.
   */
  lemma ProbeOnce(settings: Settings, req: Request, probe: Probe, again: Probe)
    requires req.client && settings.kind == Local && !Settled(settings.context, settings.model, req)
    requires Resolve(settings.kind, settings.context, settings.model, req, probe).saveContext.Some? && Named(probe.model)
    ensures var first := Resolve(settings.kind, settings.context, settings.model, req, probe);
            var now := Save(settings, first);
            && now == Settings(settings.kind, Known(first.profile.context), first.profile.model)
            && (NeedsProbe(now.kind, now.context, now.model, req) <==> Named(req.model) && now.model != req.model)
            && (!NeedsProbe(now.kind, now.context, now.model, req) ==>
                  Resolve(now.kind, now.context, now.model, req, again).profile == first.profile)
  {
    ProbesIff(settings.kind, settings.context, settings.model, req);
  }

  /** What a probe does not find stays stored as it was, and a load that does not probe stores nothing. */
  lemma SavesOnlyFindings(settings: Settings, kind: Kind, context: Context, stored: Option<string>, req: Request, probe: Probe)
    ensures var r := Resolve(kind, context, stored, req, probe);
            var now := Save(settings, r);
            && now.kind == settings.kind
            && now.context == (if r.saveContext.Some? then Known(r.profile.context) else settings.context)
            && (now.model == if req.client && kind == Local && !Settled(context, stored, req) && Named(probe.model) then probe.model else settings.model)
            && (!(req.client && kind == Local) || Settled(context, stored, req) ==> now == settings)
  {
    ResolvedFrom(kind, context, stored, req, probe);
    hide Resolve, Settled;
  }

  // ----- the state machine -----

  type CallerId = nat

  /** `readAt` is when the settings behind the entry began to be read; `ts` is what the code stores. */
  datatype Entry = Entry(profile: Profile, ts: nat, readAt: nat)

  datatype Caller =
    | Waiting(entered: nat, req: Request)
    | Locked(entered: nat, req: Request)
    | ReadKind(entered: nat, req: Request, readAt: nat, kind: Kind)
    | ReadContext(entered: nat, req: Request, readAt: nat, kind: Kind, context: Context)
    | ReadAll(entered: nat, req: Request, readAt: nat, kind: Kind, context: Context, stored: Option<string>)
  {
    /** Past its first read of the settings. */
    predicate Reading() { ReadKind? || ReadContext? || ReadAll? }
  }

  datatype Hit = Hit(entry: Entry, entered: nat, asked: Option<string>)

  datatype State = State(
    now: nat,
    settings: Settings,
    cache: Option<Entry>,
    holder: Option<CallerId>,
    callers: map<CallerId, Caller>,
    hits: seq<Hit>)

  datatype Event =
    | Tick(elapsed: nat)
    | Configure(settings: Settings)
    | Invalidate
    | Enter(id: CallerId, req: Request)
    | Acquire(id: CallerId)
    | FetchKind(id: CallerId)
    | FetchContext(id: CallerId)
    | FetchModel(id: CallerId)
    | Finish(id: CallerId, probe: Probe)
    | Abort(id: CallerId)

  /** A caller that entered at `entered` and asks for `model` may use the cached entry. */
  predicate Usable(cache: Option<Entry>, entered: nat, model: Option<string>) {
    && cache.Some?
    && entered < cache.value.ts + TTL
    && (cache.value.profile.model == model || model.None?)
  }

  function Leave(s: State, id: CallerId): State {
    s.(callers := map k | k in s.callers && k != id :: s.callers[k])
  }

  function Save(settings: Settings, r: Resolved): Settings {
    settings.(context := if r.saveContext.Some? then Known(r.saveContext.value) else settings.context,
              model := if r.saveModel.Some? then r.saveModel else settings.model)
  }

  function EnterStep(s: State, id: CallerId, req: Request): State {
    if id in s.callers then s
    else if Usable(s.cache, s.now, req.model) then s.(hits := s.hits + [Hit(s.cache.value, s.now, req.model)])
    else s.(callers := s.callers[id := Waiting(s.now, req)])
  }

  /** The lock is free: check the cache again, else become the one that loads. */
  function AcquireStep(s: State, id: CallerId): State {
    if s.holder.Some? || id !in s.callers || !s.callers[id].Waiting? then s
    else
      var c := s.callers[id];
      if Usable(s.cache, c.entered, c.req.model)
      then Leave(s, id).(hits := s.hits + [Hit(s.cache.value, c.entered, c.req.model)])
      else s.(holder := Some(id), callers := s.callers[id := Locked(c.entered, c.req)])
  }

  function FinishStep(s: State, id: CallerId, probe: Probe): State {
    if id !in s.callers || !s.callers[id].ReadAll? then s
    else
      var c := s.callers[id];
      var r := Resolve(c.kind, c.context, c.stored, c.req, probe);
      Leave(s, id).(settings := Save(s.settings, r), cache := Some(Entry(r.profile, c.entered, c.readAt)), holder := None)
  }

  function Step(s: State, e: Event): State {
    match e
    case Tick(d) => s.(now := s.now + d)
    case Configure(settings) => s.(settings := settings)
    case Invalidate => s.(cache := None)
    case Enter(id, req) => EnterStep(s, id, req)
    case Acquire(id) => AcquireStep(s, id)
    case FetchKind(id) =>
      if id in s.callers && s.callers[id].Locked? then
        var c := s.callers[id];
        s.(callers := s.callers[id := ReadKind(c.entered, c.req, s.now, s.settings.kind)])
      else s
    case FetchContext(id) =>
      if id in s.callers && s.callers[id].ReadKind? then
        var c := s.callers[id];
        s.(callers := s.callers[id := ReadContext(c.entered, c.req, c.readAt, c.kind, s.settings.context)])
      else s
    case FetchModel(id) =>
      if id in s.callers && s.callers[id].ReadContext? then
        var c := s.callers[id];
        s.(callers := s.callers[id := ReadAll(c.entered, c.req, c.readAt, c.kind, c.context, s.settings.model)])
      else s
    case Finish(id, probe) => FinishStep(s, id, probe)
    case Abort(id) => if s.holder == Some(id) then Leave(s, id).(holder := None) else s
  }

  function Execute(s: State, trace: seq<Event>): State {
    if trace == [] then s else Step(Execute(s, trace[..|trace| - 1]), trace[|trace| - 1])
  }

  predicate Initial(s: State) {
    s.cache == None && s.holder == None && s.callers == map[] && s.hits == []
  }

  // ----- one load at a time, bounded staleness -----

  predicate CallerOk(s: State, id: CallerId, c: Caller) {
    && c.entered <= s.now
    && (s.holder == Some(id) <==> !c.Waiting?)
    && (c.Reading() ==> c.entered <= c.readAt <= s.now)
  }

  predicate HitOk(h: Hit) {
    h.entered < h.entry.readAt + TTL && (h.asked.None? || h.entry.profile.model == h.asked)
  }

  ghost predicate Inv(s: State) {
    && (s.holder.Some? ==> s.holder.value in s.callers)
    && (forall id | id in s.callers :: CallerOk(s, id, s.callers[id]))
    && (s.cache.Some? ==> s.cache.value.ts <= s.cache.value.readAt <= s.now)
    && (forall i | 0 <= i < |s.hits| :: HitOk(s.hits[i]))
  }

  lemma StepKeepsInv(s: State, e: Event)
    requires Inv(s)
    ensures Inv(Step(s, e))
  {
    hide Resolve, Save;
  }

  lemma {:induction false} ExecuteKeepsInv(s: State, trace: seq<Event>)
    requires Inv(s)
    ensures Inv(Execute(s, trace))
  {
    if trace != [] {
      ExecuteKeepsInv(s, trace[..|trace| - 1]);
      StepKeepsInv(Execute(s, trace[..|trace| - 1]), trace[|trace| - 1]);
      hide Step, Inv;
    }
  }

  /** Mutual exclusion: two callers past the lock are the same caller. */
  lemma OneLoadAtATime(s: State, trace: seq<Event>, a: CallerId, b: CallerId)
    requires Initial(s)
    requires var now := Execute(s, trace);
             a in now.callers && b in now.callers && !now.callers[a].Waiting? && !now.callers[b].Waiting?
    ensures a == b
  {
    ExecuteKeepsInv(s, trace);
    hide Execute;
  }

  /** Whatever the interleaving, a cache hit never serves settings read 60 seconds or more before its caller came, nor another model. */
  lemma BoundedStaleness(s: State, trace: seq<Event>, i: nat)
    requires Initial(s) && i < |Execute(s, trace).hits|
    ensures var h := Execute(s, trace).hits[i];
            h.entered < h.entry.readAt + 60_000_000 && (h.asked.None? || h.entry.profile.model == h.asked)
  {
    ExecuteKeepsInv(s, trace);
    assert HitOk(Execute(s, trace).hits[i]);
    hide Execute;
  }

  // ----- invalidation -----

  ghost predicate HitsSince(s: State, from: nat, t: nat) {
    from <= |s.hits| && forall i | from <= i < |s.hits| :: t <= s.hits[i].entry.readAt
  }

  /** All hits after an invalidation of `s`, in every continuation, serve settings read after it. */
  ghost predicate InvalidationHolds(s: State) {
    forall trace: seq<Event> :: HitsSince(Execute(Step(s, Invalidate), trace), |s.hits|, s.now)
  }

  /**
   The names a load under way may still resolve to, settings it has not read yet and the endpoint's
   answer being open.
   */
  predicate MayResolveTo(c: Caller, m: Option<string>)
    requires c.Reading()
  {
    var probes := c.req.client && c.kind == Local;
    match c
    case ReadKind(_, req, _, _) => m == req.model || (Truthy(m) && (probes || !Truthy(req.model)))
    case ReadContext(_, req, _, _, context) =>
      m == req.model || (Truthy(m) && (probes || (context.Known? && !Truthy(req.model))))
    case ReadAll(_, req, _, kind, context, stored) =>
      || m == Or(if StoredFits(context, stored, req) then stored else None, req.model)
      || (Truthy(m) && NeedsProbe(kind, context, stored, req))
  }

  /** The load began to read the settings before `t`. */
  predicate Stale(c: Caller, t: nat) {
    c.Reading() && c.readAt < t
  }

  /** Its entry can serve `w`, who is waiting for the lock. */
  predicate MayServe(c: Caller, w: Caller)
    requires c.Reading()
  {
    w.Waiting? && w.entered < c.entered + TTL && (w.req.model.None? || MayResolveTo(c, w.req.model))
  }

  predicate Serves(e: Entry, w: Caller) {
    w.Waiting? && Usable(Some(e), w.entered, w.req.model)
  }

  /**
   A load that has begun to read will refill the cache in time for a new caller, or for one that is
   waiting already, however old the load itself is by now.
   */
  ghost predicate LateRefill(s: State) {
    exists id | id in s.callers && Stale(s.callers[id], s.now) ::
      || s.now < s.callers[id].entered + TTL
      || (exists w | w in s.callers :: MayServe(s.callers[id], s.callers[w]))
  }

  /** Nothing read before `t` can serve anybody any more. */
  ghost predicate Quiet(s: State, t: nat) {
    && t <= s.now
    && (forall id | id in s.callers && Stale(s.callers[id], t) ::
          s.callers[id].entered + TTL <= t && forall w | w in s.callers :: !MayServe(s.callers[id], s.callers[w]))
    && (s.cache.Some? && s.cache.value.readAt < t ==>
          s.cache.value.ts + TTL <= t && forall w | w in s.callers :: !Serves(s.cache.value, s.callers[w]))
  }

  /** What a load resolves to it might have resolved to all along. */
  lemma ResolvesWithin(c: Caller, probe: Probe)
    requires c.ReadAll?
    ensures MayResolveTo(c, Resolve(c.kind, c.context, c.stored, c.req, probe).profile.model)
  {}

  lemma FinishQuiet(s: State, id: CallerId, probe: Probe, t: nat)
    requires Quiet(s, t) && id in s.callers && s.callers[id].ReadAll?
    ensures Quiet(FinishStep(s, id, probe), t)
  {
    var c, after := s.callers[id], FinishStep(s, id, probe);
    ResolvesWithin(c, probe);
    hide Resolve, Save, MayResolveTo;
    var e := after.cache.value;
    if e.readAt < t {
      assert Stale(c, t);
      forall w | w in after.callers ensures !Serves(e, after.callers[w]) {
        assert !MayServe(c, s.callers[w]);
      }
    }
  }

  lemma FetchQuiet(s: State, e: Event, t: nat)
    requires Quiet(s, t) && (e.FetchKind? || e.FetchContext? || e.FetchModel?)
    ensures Quiet(Step(s, e), t)
  {
    hide Resolve, Save;
    var after := Step(s, e);
    if after != s {
      var c, d := s.callers[e.id], after.callers[e.id];
      forall w | w in after.callers && Stale(d, t) ensures !MayServe(d, after.callers[w]) {
        if after.callers[w].Waiting? { assert !MayServe(c, s.callers[w]); }
      }
    }
  }

  lemma StepStaysQuiet(s: State, e: Event, from: nat, t: nat)
    requires Quiet(s, t) && HitsSince(s, from, t)
    ensures Quiet(Step(s, e), t) && HitsSince(Step(s, e), from, t)
  {
    if e.FetchKind? || e.FetchContext? || e.FetchModel? { FetchQuiet(s, e, t); }
    if e.Finish? && e.id in s.callers && s.callers[e.id].ReadAll? { FinishQuiet(s, e.id, e.probe, t); }
    hide Resolve, Save, MayResolveTo, FinishStep;
  }

  lemma {:induction false} StaysQuiet(s: State, trace: seq<Event>, from: nat, t: nat)
    requires Quiet(s, t) && HitsSince(s, from, t)
    ensures Quiet(Execute(s, trace), t) && HitsSince(Execute(s, trace), from, t)
  {
    if trace != [] {
      StaysQuiet(s, trace[..|trace| - 1], from, t);
      StepStaysQuiet(Execute(s, trace[..|trace| - 1]), trace[|trace| - 1], from, t);
      hide Step, Quiet, HitsSince;
    }
  }

  lemma Next(s: State, trace: seq<Event>, e: Event)
    ensures Execute(s, trace + [e]) == Step(Execute(s, trace), e)
  {
    assert (trace + [e])[..|trace|] == trace;
  }

  /** A load whose settings are all read, with a probe answer, that resolves to `m`. */
  predicate About(c: Caller, probe: Probe, m: Option<string>) {
    c.ReadAll? && Resolve(c.kind, c.context, c.stored, c.req, probe).profile.model == m
  }

  /** The same load, further on. */
  predicate Later(c: Caller, d: Caller) {
    c.Reading() && d.Reading() && d.entered == c.entered && d.req == c.req && d.readAt == c.readAt && d.kind == c.kind
  }

  lemma ReadsModel(s: State, id: CallerId, m: Option<string>) returns (trace: seq<Event>, d: Caller, probe: Probe)
    requires id in s.callers && s.callers[id].ReadContext? && MayResolveTo(s.callers[id], m)
    ensures About(d, probe, m) && Later(s.callers[id], d)
    ensures Execute(s, trace) == s.(callers := s.callers[id := d], settings := Execute(s, trace).settings)
  {
    var c := s.callers[id];
    var probes := c.req.client && c.kind == Local;
    var stored := if !probes && m != c.req.model then m else None;
    probe := Probe(if probes then m else None, None, None);
    d := ReadAll(c.entered, c.req, c.readAt, c.kind, c.context, stored);
    var settings := s.settings.(model := stored);
    trace := [] + [Configure(settings)] + [FetchModel(id)];
    Next(s, [], Configure(settings));
    Next(s, [] + [Configure(settings)], FetchModel(id));
  }

  /** It can be driven to any name it may resolve to, without anybody else moving. */
  lemma ReadsOn(s: State, id: CallerId, m: Option<string>) returns (trace: seq<Event>, d: Caller, probe: Probe)
    requires id in s.callers && s.callers[id].Reading() && MayResolveTo(s.callers[id], m)
    ensures About(d, probe, m) && Later(s.callers[id], d)
    ensures Execute(s, trace) == s.(callers := s.callers[id := d], settings := Execute(s, trace).settings)
  {
    var c := s.callers[id];
    if c.ReadKind? {
      var settings := s.settings.(context := Known(0));
      var t := [] + [Configure(settings)] + [FetchContext(id)];
      Next(s, [], Configure(settings));
      Next(s, [] + [Configure(settings)], FetchContext(id));
      var now := Execute(s, t);
      assert now == s.(callers := s.callers[id := ReadContext(c.entered, c.req, c.readAt, c.kind, Known(0))], settings := settings);
      var more;
      more, d, probe := ReadsModel(now, id, m);
      trace := t + more;
      Joined(s, t, more);
      hide Execute, Step, Resolve;
    } else if c.ReadContext? {
      trace, d, probe := ReadsModel(s, id, m);
    } else {
      trace, d, probe := [], c, Probe(if NeedsProbe(c.kind, c.context, c.stored, c.req) then m else None, None, None);
    }
  }

  lemma {:induction false} Joined(s: State, a: seq<Event>, b: seq<Event>)
    ensures Execute(s, a + b) == Execute(Execute(s, a), b)
  {
    if b == [] {
      assert a + b == a;
    } else {
      Joined(s, a, b[..|b| - 1]);
      assert (a + b)[..|a + b| - 1] == a + b[..|b| - 1];
    }
  }

  function Default(c: Caller): Option<string>
    requires c.Reading()
  {
    if c.ReadAll? && StoredFits(c.context, c.stored, c.req) then Or(c.stored, c.req.model) else c.req.model
  }

  lemma Loaded(s: State, id: CallerId, d: Caller, probe: Probe, m: Option<string>)
    requires id in s.callers && s.callers[id] == d && About(d, probe, m)
    ensures var after := Step(s, Finish(id, probe));
            && after.cache.Some? && after.cache.value.ts == d.entered && after.cache.value.readAt == d.readAt
            && after.cache.value.profile.model == m && after.hits == s.hits && after.now == s.now && after.holder.None?
            && (forall k | k in s.callers && k != id :: k in after.callers && after.callers[k] == s.callers[k])
            && (forall k | k !in s.callers :: k !in after.callers)
  {
    hide Resolve, Save;
  }

  /** Somebody is served what was read before `t`. */
  lemma Served(s: State, e: Event, t: nat)
    requires s.cache.Some? && s.cache.value.readAt < t
    requires || (e.Enter? && e.id !in s.callers && Usable(s.cache, s.now, e.req.model))
             || (e.Acquire? && s.holder.None? && e.id in s.callers && Serves(s.cache.value, s.callers[e.id]))
    ensures forall from: nat | from <= |s.hits| :: !HitsSince(Step(s, e), from, t)
  {
    assert Step(s, e).hits[|s.hits|].entry == s.cache.value;
  }

  lemma {:induction false} Unused(s: set<CallerId>) returns (id: CallerId)
    ensures forall k | k in s :: k < id
  {
    if s == {} {
      id := 0;
    } else {
      var k :| k in s;
      var rest := Unused(s - {k});
      id := if rest > k then rest else k + 1;
      forall l | l in s ensures l < id {
        if l != k { assert l in s - {k}; }
      }
    }
  }

  /** A load under way finishes after the invalidation, refills the cache with what it read, and serves it. */
  lemma LateLoadServed(s: State, id: CallerId, m: Option<string>, e: Event) returns (trace: seq<Event>)
    requires id in s.callers && Stale(s.callers[id], s.now) && MayResolveTo(s.callers[id], m)
    requires || (e.Enter? && e.id !in s.callers && s.now < s.callers[id].entered + TTL && e.req.model.None?)
             || (e.Acquire? && e.id in s.callers && s.callers[e.id].Waiting? && s.callers[e.id].entered < s.callers[id].entered + TTL
                 && (s.callers[e.id].req.model.None? || s.callers[e.id].req.model == m))
    ensures !HitsSince(Execute(Step(s, Invalidate), trace), |s.hits|, s.now)
  {
    var cleared := Step(s, Invalidate);
    var t, d, probe := ReadsOn(cleared, id, m);
    var now := Execute(cleared, t);
    Loaded(now, id, d, probe, m);
    var loaded := Step(now, Finish(id, probe));
    Served(loaded, e, s.now);
    Next(cleared, t, Finish(id, probe));
    Next(cleared, t + [Finish(id, probe)], e);
    trace := t + [Finish(id, probe)] + [e];
    hide Execute, Step, HitsSince, Resolve, MayResolveTo, About;
  }

  /** With no load that has begun to read, every later hit is on an entry loaded after the invalidation. */
  lemma InvalidationForcesReload(s: State)
    requires forall id | id in s.callers :: !Stale(s.callers[id], s.now)
    ensures InvalidationHolds(s)
  {
    assert !LateRefill(s);
    RefillOnly(s);
  }

  lemma RefillOnly(s: State)
    requires !LateRefill(s)
    ensures InvalidationHolds(s)
  {
    var cleared := Step(s, Invalidate);
    assert Quiet(cleared, s.now);
    assert HitsSince(cleared, |s.hits|, s.now);
    hide Step, Execute, Quiet, LateRefill;
    forall trace: seq<Event> ensures HitsSince(Execute(cleared, trace), |s.hits|, s.now) {
      StaysQuiet(cleared, trace, |s.hits|, s.now);
    }
  }

  /**
   Invalidation takes full effect exactly if no load that has begun to read can still refill the cache
   for somebody: for a caller that comes now, while the load is younger than the time to live, or for
   one already waiting that came in time and asks for a name the load may resolve to.
   */
  lemma InvalidationHoldsIff(s: State)
    ensures InvalidationHolds(s) <==> !LateRefill(s)
  {
    if LateRefill(s) {
      var id :| id in s.callers && Stale(s.callers[id], s.now)
        && (s.now < s.callers[id].entered + TTL || exists w | w in s.callers :: MayServe(s.callers[id], s.callers[w]));
      var c := s.callers[id];
      var trace;
      if s.now < c.entered + TTL {
        var later := Unused(s.callers.Keys);
        trace := LateLoadServed(s, id, Default(c), Enter(later, Request(None, false, false)));
      } else {
        var w :| w in s.callers && MayServe(c, s.callers[w]);
        var m := if s.callers[w].req.model.None? then Default(c) else s.callers[w].req.model;
        trace := LateLoadServed(s, id, m, Acquire(w));
      }
      assert !HitsSince(Execute(Step(s, Invalidate), trace), |s.hits|, s.now);
      hide Execute, Step, HitsSince;
    } else {
      RefillOnly(s);
    }
  }

  // ----- the caller's own next request -----

  /** The entry a caller filled serves its next request exactly while it is young and if the resolved name is the requested one. */
  lemma SecondCallHitsIff(s: State, id: CallerId, probe: Probe, later: CallerId)
    requires Inv(s) && id in s.callers && s.callers[id].ReadAll? && later !in s.callers
    ensures var c := s.callers[id];
            var loaded := Step(s, Finish(id, probe));
            |Step(loaded, Enter(later, c.req)).hits| > |s.hits| <==>
              && s.now < c.entered + 60_000_000
              && (c.req.model.None? || Resolve(c.kind, c.context, c.stored, c.req, probe).profile.model == c.req.model)
  {
    hide Resolve, Save;
  }

  /** However long the clock runs on: a new caller is served exactly while the entry is young, and for its model or any. */
  lemma HitIff(s: State, elapsed: nat, id: CallerId, req: Request)
    requires id !in s.callers && s.cache.Some?
    ensures var e, after := s.cache.value, Step(Step(s, Tick(elapsed)), Enter(id, req));
            if s.now + elapsed < e.ts + 60_000_000 && (req.model.None? || e.profile.model == req.model)
            then id !in after.callers && after.hits == s.hits + [Hit(e, s.now + elapsed, req.model)]
            else id in after.callers && after.hits == s.hits
  {}

  /** The same for one who has waited: judged by when it came, it leaves with the entry or takes the lock. */
  lemma WaiterHitIff(s: State, id: CallerId)
    requires s.holder.None? && id in s.callers && s.callers[id].Waiting? && s.cache.Some?
    ensures var e, c, after := s.cache.value, s.callers[id], Step(s, Acquire(id));
            && (forall k | k != id :: (k in after.callers <==> k in s.callers) && (k in s.callers ==> after.callers[k] == s.callers[k]))
            && after.cache == s.cache && after.settings == s.settings
            && if c.entered < e.ts + 60_000_000 && (c.req.model.None? || e.profile.model == c.req.model)
               then id !in after.callers && after.holder.None? && after.hits == s.hits + [Hit(e, c.entered, c.req.model)]
               else id in after.callers && after.holder == Some(id) && after.hits == s.hits
  {}

  /** A caller whom the cache does not serve, while the lock is free and nobody comes between, loads what the settings say and leaves it in the cache. */
  lemma LoadFills(s: State, id: CallerId, req: Request, probe: Probe)
    requires id !in s.callers && s.holder.None? && !Usable(s.cache, s.now, req.model)
    ensures var r := Resolve(s.settings.kind, s.settings.context, s.settings.model, req, probe);
            var trace := [] + [Enter(id, req)] + [Acquire(id)] + [FetchKind(id)] + [FetchContext(id)] + [FetchModel(id)] + [Finish(id, probe)];
            Execute(s, trace) == s.(settings := Save(s.settings, r), cache := Some(Entry(r.profile, s.now, s.now)))
  {
    var t1 := [] + [Enter(id, req)];
    var t3 := t1 + [Acquire(id)] + [FetchKind(id)];
    var t5 := t3 + [FetchContext(id)] + [FetchModel(id)];
    assert Execute(s, []) == s;
    Next(s, [], Enter(id, req));
    Next(s, t1, Acquire(id));
    Next(s, t1 + [Acquire(id)], FetchKind(id));
    Next(s, t3, FetchContext(id));
    Next(s, t3 + [FetchContext(id)], FetchModel(id));
    Next(s, t5, Finish(id, probe));
    hide Execute, Resolve, Save, Usable;
    LoadSteps(s, id, req, probe);
  }

  lemma LoadSteps(s: State, id: CallerId, req: Request, probe: Probe)
    requires id !in s.callers && s.holder.None? && !Usable(s.cache, s.now, req.model)
    ensures var waiting := Step(s, Enter(id, req));
            var read := Step(Step(Step(Step(waiting, Acquire(id)), FetchKind(id)), FetchContext(id)), FetchModel(id));
            var r := Resolve(s.settings.kind, s.settings.context, s.settings.model, req, probe);
            Step(read, Finish(id, probe)) == s.(settings := Save(s.settings, r), cache := Some(Entry(r.profile, s.now, s.now)))
  {
    hide Resolve, Save, Usable;
    var read := s.(holder := Some(id), callers := s.callers[id := ReadAll(s.now, req, s.now, s.settings.kind, s.settings.context, s.settings.model)]);
    var waiting := Step(s, Enter(id, req));
    assert waiting == s.(callers := s.callers[id := Waiting(s.now, req)]);
    var locked := Step(waiting, Acquire(id));
    assert locked == s.(holder := Some(id), callers := s.callers[id := Locked(s.now, req)]);
    assert Step(Step(Step(locked, FetchKind(id)), FetchContext(id)), FetchModel(id)) == read;
    assert (map k | k in read.callers && k != id :: read.callers[k]) == s.callers;
  }

  /** A load that raises leaves settings and cache alone and hands the lock to the next who waits. */
  lemma AbortFrees(s: State, id: CallerId, next: CallerId)
    requires s.holder == Some(id) && next != id && next in s.callers && s.callers[next].Waiting?
    ensures var freed := Step(s, Abort(id));
            && freed.holder.None? && id !in freed.callers && freed.cache == s.cache && freed.settings == s.settings
            && (!Usable(s.cache, s.callers[next].entered, s.callers[next].req.model) ==> Step(freed, Acquire(next)).holder == Some(next))
  {}

  // ----- the module's cache and lock -----

  class Cache {
    var now: nat
    var settings: Settings
    var cache: Option<Entry>
    var holder: Option<CallerId>
    var callers: map<CallerId, Caller>
    var hits: seq<Hit>

    function View(): State
      reads this
    {
      State(now, settings, cache, holder, callers, hits)
    }

    ghost predicate Valid()
      reads this
    {
      Inv(View())
    }

    constructor (settings: Settings)
      ensures Valid() && Initial(View()) && this.settings == settings
    {
      now := 0;
      this.settings := settings;
      cache := None;
      holder := None;
      callers := map[];
      hits := [];
    }

    method Clear()
      requires Valid()
      modifies this`cache
      ensures Valid()
      ensures View() == Step(old(View()), Invalidate)
    {
      hide Inv;
      StepKeepsInv(View(), Invalidate);
      cache := None;
    }

    /** The fast path; a caller it does not serve goes on to wait for the lock. */
    method FastPath(id: CallerId, req: Request) returns (served: Option<Profile>)
      requires Valid() && id !in callers
      modifies this`hits, this`callers
      ensures Valid()
      ensures View() == Step(old(View()), Enter(id, req))
      ensures served.Some? <==> id !in callers
      ensures served.Some? ==> cache.Some? && served.value == cache.value.profile
    {
      hide Inv;
      StepKeepsInv(View(), Enter(id, req));
      if cache.Some? && now < cache.value.ts + TTL {
        if cache.value.profile.model == req.model || req.model.None? {
          hits := hits + [Hit(cache.value, now, req.model)];
          return Some(cache.value.profile);
        }
      }
      callers := callers[id := Waiting(now, req)];
      return None;
    }

    method TakeLock(id: CallerId) returns (served: Option<Profile>)
      requires Valid() && holder.None? && id in callers && callers[id].Waiting?
      modifies this`hits, this`callers, this`holder
      ensures Valid()
      ensures View() == Step(old(View()), Acquire(id))
      ensures served.Some? ==> cache.Some? && served.value == cache.value.profile && id !in callers
      ensures served.None? ==> holder == Some(id)
    {
      hide Inv;
      StepKeepsInv(View(), Acquire(id));
      var c := callers[id];
      if cache.Some? && c.entered < cache.value.ts + TTL {
        if cache.value.profile.model == c.req.model || c.req.model.None? {
          hits := hits + [Hit(cache.value, c.entered, c.req.model)];
          callers := map k | k in callers && k != id :: callers[k];
          return Some(cache.value.profile);
        }
      }
      holder := Some(id);
      callers := callers[id := Locked(c.entered, c.req)];
      return None;
    }

    method ReadProfileSetting(id: CallerId)
      requires Valid() && id in callers && callers[id].Locked?
      modifies this`callers
      ensures Valid()
      ensures View() == Step(old(View()), FetchKind(id))
    {
      hide Inv;
      StepKeepsInv(View(), FetchKind(id));
      var c := callers[id];
      callers := callers[id := ReadKind(c.entered, c.req, now, settings.kind)];
    }

    method ReadContextSetting(id: CallerId)
      requires Valid() && id in callers && callers[id].ReadKind?
      modifies this`callers
      ensures Valid()
      ensures View() == Step(old(View()), FetchContext(id))
    {
      hide Inv;
      StepKeepsInv(View(), FetchContext(id));
      var c := callers[id];
      callers := callers[id := ReadContext(c.entered, c.req, c.readAt, c.kind, settings.context)];
    }

    method ReadModelSetting(id: CallerId)
      requires Valid() && id in callers && callers[id].ReadContext?
      modifies this`callers
      ensures Valid()
      ensures View() == Step(old(View()), FetchModel(id))
    {
      hide Inv;
      StepKeepsInv(View(), FetchModel(id));
      var c := callers[id];
      callers := callers[id := ReadAll(c.entered, c.req, c.readAt, c.kind, c.context, settings.model)];
    }

    /** Decides, probes, saves what was found, fills the cache and releases the lock. */
    method Load(id: CallerId, probe: Probe) returns (profile: Profile)
      requires Valid() && id in callers && callers[id].ReadAll?
      modifies this`settings, this`cache, this`callers, this`holder
      ensures Valid()
      ensures View() == Step(old(View()), Finish(id, probe))
      ensures cache.Some? && profile == cache.value.profile
    {
      hide Inv;
      StepKeepsInv(View(), Finish(id, probe));
      var c := callers[id];
      var req := c.req;
      var ctx: Option<int>, name: Option<string> := None, None;
      if c.context.Known? && Truthy(c.stored) && c.stored == Or(req.model, c.stored) {
        ctx, name := Some(c.context.length), c.stored;
      }
      if req.client && c.kind == Local && (ctx.None? || (Truthy(req.model) && c.stored != req.model)) {
        if Truthy(probe.model) { name := probe.model; }
        if probe.context.Some? && probe.context.value != 0 { ctx := probe.context; }
        if ctx.None? && req.ladderAllowed && Truthy(Or(name, req.model)) {
          ctx := Some(if probe.ladder.Some? then probe.ladder.value else DEFAULT_CTX);
        }
        if ctx.Some? { settings := settings.(context := Known(ctx.value)); }
        if Truthy(name) { settings := settings.(model := name); }
      }
      profile := Profile(c.kind, if ctx.Some? then ctx.value else DEFAULT_CTX, Or(name, req.model));
      cache := Some(Entry(profile, c.entered, c.readAt));
      callers := map k | k in callers && k != id :: callers[k];
      holder := None;
    }

    method GiveUp(id: CallerId)
      requires Valid() && holder == Some(id)
      modifies this`callers, this`holder
      ensures Valid()
      ensures View() == Step(old(View()), Abort(id))
    {
      hide Inv;
      StepKeepsInv(View(), Abort(id));
      callers := map k | k in callers && k != id :: callers[k];
      holder := None;
    }
  }
}
