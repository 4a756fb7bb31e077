/** The credentials of one connection over a run. */
module ConnectionCredentials {
  import opened Prelude
  import opened ConnectionToken

  // The credentials of one connection over a run: issuing bearer strings, renewing, reusing the connection for a new demand,
  // and verifying. Renewal revokes what was issued before it; reuse never does.

  datatype Status = Pending | Probing | Ready | Failed | Released | Expired

  /** The identity a string is bound to: provider, capability, audience and the instance that serves it. */
  datatype Binding = Binding(epoch: Text, connection: Text, allocation: Text, provider: Text, capability: Text, audience: Text,
                             revision: Option<Text>, instance: Option<Text>, instanceGeneration: Option<int>)

  /** Times are in milliseconds; `issued` is history: every payload a string was made of. */
  datatype State = State(status: Status, binding: Binding, generation: int, issuedAt: int, expiresAt: int, now: int,
                         issued: set<Payload>)

  /** `Math.floor(ms / 1000)` */
  function Seconds(ms: int): int { ms / 1000 }

  /** `Math.ceil(ms / 1000)` */
  function CeilSeconds(ms: int): int { -((-ms) / 1000) }

  function Max(a: int, b: int): int { if a < b then b else a }

  /** `providerToken`; a combined connection shortens the expiry to the earliest of its parts. */
  function PayloadFor(s: State, expiresAt: int, subject: Option<Text>, scopes: Option<seq<Scope>>): Payload {
    var b := s.binding;
    Payload(1, b.epoch, b.connection, b.allocation, b.provider, b.capability, b.audience, s.generation, b.revision, b.instance,
            b.instanceGeneration, s.issuedAt, Seconds(expiresAt), subject, scopes)
  }

  /** What `verifyProviderToken` asks of the payload, once the codec has accepted the string. */
  predicate Matches(s: State, p: Payload) {
    && s.status == Ready
    && p.epoch == s.binding.epoch && p.connection == s.binding.connection && p.allocation == s.binding.allocation
    && p.provider == s.binding.provider && p.capability == s.binding.capability && p.audience == s.binding.audience
    && p.generation == s.generation && p.iat == s.issuedAt && p.exp <= Seconds(s.expiresAt)
    && p.providerRevision == s.binding.revision && p.instanceId == s.binding.instance
    && p.instanceGeneration == s.binding.instanceGeneration
  }

  predicate Accepts(c: Codec, s: State, token: string) {
    |token| <= 4096 && Verify(c, token, s.now).Ok? && Matches(s, Verify(c, token, s.now).payload)
  }

  datatype Step =
    | Issue(expiresAt: int, subject: Option<Text>, scopes: Option<seq<Scope>>)
    | Renew(ttl: int)
    | Reuse(ttl: int)
    | AllocationRenewed(ttl: int)   // by its own route; the connection follows its allocation
    | IdleRelease
    | Lifecycle(status: Status)     // any other change of status
    | Rebind(binding: Binding)      // another instance serves the allocation
    | Advance(to: int)

  predicate Enabled(s: State, e: Step) {
    match e
    case Issue(expiresAt, _, _) => s.status == Ready && expiresAt <= s.expiresAt
    case Renew(_) => s.status in {Pending, Probing, Ready}
    case Reuse(_) => s.status in {Pending, Probing, Ready}
    case AllocationRenewed(_) => true
    case IdleRelease => s.status == Ready
    case Lifecycle(_) => true
    case Rebind(b) => b.connection == s.binding.connection
    case Advance(to) => s.now <= to
  }

  function Next(s: State, e: Step): State
    requires Enabled(s, e)
  {
    match e
    case Issue(expiresAt, subject, scopes) => s.(issued := s.issued + {PayloadFor(s, expiresAt, subject, scopes)})
    case Renew(ttl) => s.(expiresAt := s.now + ttl * 1000, generation := s.generation + 1, issuedAt := Seconds(s.now))
    case Reuse(ttl) => s.(expiresAt := s.now + Max(ttl, CeilSeconds(s.expiresAt - s.now)) * 1000)
    case AllocationRenewed(ttl) => s.(expiresAt := s.now + ttl * 1000)
    case IdleRelease => s.(status := Released, generation := s.generation + 1)
    case Lifecycle(status) => s.(status := status)
    case Rebind(binding) => s.(binding := binding)
    case Advance(to) => s.(now := to)
  }

  ghost predicate Run(states: seq<State>, steps: seq<Step>) {
    && |states| == |steps| + 1
    && states[0].issued == {}
    && forall i :: 0 <= i < |steps| ==> Enabled(states[i], steps[i]) && states[i + 1] == Next(states[i], steps[i])
  }

  // ----- renewal -----

  lemma {:induction false} GenerationGrows(states: seq<State>, steps: seq<Step>, i: nat, j: nat)
    requires Run(states, steps) && i <= j < |states|
    ensures states[i].generation <= states[j].generation
  {
    if i < j { GenerationGrows(states, steps, i, j - 1); }
  }

  lemma {:induction false} IssuedUpToNow(states: seq<State>, steps: seq<Step>, i: nat, p: Payload)
    requires Run(states, steps) && i < |states| && p in states[i].issued
    ensures p.generation <= states[i].generation
  {
    if i > 0 && p in states[i - 1].issued { IssuedUpToNow(states, steps, i - 1, p); }
  }

  /** No string issued before a renewal is accepted at any time after it. */
  lemma RenewRevokes(c: Codec, states: seq<State>, steps: seq<Step>, i: nat, j: nat, p: Payload)
    requires Sound(c) && Run(states, steps) && i < j < |states|
    requires p in states[i].issued && (steps[i].Renew? || steps[i].IdleRelease?)
    ensures Sign(c, p).Some? ==> !Accepts(c, states[j], Sign(c, p).value)
  {
    IssuedUpToNow(states, steps, i, p);
    GenerationGrows(states, steps, i + 1, j);
    if Sign(c, p).Some? { SignedIsRead(c, p, states[j].now); }
  }

  // ----- reuse -----

  /** A new demand never shortens the lease, whatever the time to live it asks for. */
  lemma ReuseNeverShortens(s: State, ttl: int)
    requires Enabled(s, Reuse(ttl))
    ensures Next(s, Reuse(ttl)).expiresAt >= s.expiresAt && Next(s, Reuse(ttl)).expiresAt >= s.now + ttl * 1000
  {
    assert CeilSeconds(s.expiresAt - s.now) * 1000 >= s.expiresAt - s.now;
  }

  /** Neither a renewal of the connection nor its idle release. */
  predicate Keeps(e: Step) { !e.Renew? && !e.IdleRelease? }

  lemma {:induction false} ReuseKeeps(states: seq<State>, steps: seq<Step>, i: nat, j: nat)
    requires Run(states, steps) && i <= j < |states| && forall k :: i <= k < j ==> Keeps(steps[k])
    ensures states[j].generation == states[i].generation && states[j].issuedAt == states[i].issuedAt
    ensures states[j].now >= states[i].now
    ensures (forall k :: i <= k < j ==> !steps[k].AllocationRenewed?) ==> states[j].expiresAt >= states[i].expiresAt
  {
    if i < j {
      ReuseKeeps(states, steps, i, j - 1);
      assert Keeps(steps[j - 1]);
      if steps[j - 1].Reuse? { ReuseNeverShortens(states[j - 1], steps[j - 1].ttl); }
    }
  }

  /**
   As long as the connection itself is not renewed, an accepted string is accepted again exactly until it expires and while
   the lease reaches as far as the string, if the connection is ready with the binding it had. Reuse never takes the lease
   back, so only a renewal of the allocation by its own route can.
   */
  lemma ReusePreserves(c: Codec, states: seq<State>, steps: seq<Step>, i: nat, j: nat, token: string)
    requires Sound(c) && Run(states, steps) && i <= j < |states| && forall k :: i <= k < j ==> Keeps(steps[k])
    requires Accepts(c, states[i], token) && states[j].status == Ready && states[j].binding == states[i].binding
    ensures var p := Verify(c, token, states[i].now).payload;
            && (Accepts(c, states[j], token)
                <==> Verify(c, token, states[j].now) != Err(ExpiredToken) && p.exp <= Seconds(states[j].expiresAt))
            && ((forall k :: i <= k < j ==> !steps[k].AllocationRenewed?) ==> p.exp <= Seconds(states[j].expiresAt))
  {
    ReuseKeeps(states, steps, i, j);
    var p := OnlySignedIsRead(c, token, states[i].now);
    SignedIsRead(c, p, states[i].now);
    SignedIsRead(c, p, states[j].now);
  }

  /** A string is accepted as soon as it is issued, unless it is expired, too long or not well formed. */
  lemma IssuedIsAccepted(c: Codec, s: State, e: Step)
    requires Sound(c) && Enabled(s, e) && e.Issue?
    requires var p := PayloadFor(s, e.expiresAt, e.subject, e.scopes);
             Valid(p) && |Sign(c, p).value| <= 4096 && p.iat <= Seconds(s.now) < p.exp
    ensures Accepts(c, Next(s, e), Sign(c, PayloadFor(s, e.expiresAt, e.subject, e.scopes)).value)
  {
    SignedIsRead(c, PayloadFor(s, e.expiresAt, e.subject, e.scopes), s.now);
  }
}
