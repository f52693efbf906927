/** The product-mode verdict on a received row (bus_enforce.py), and which rejections may still pass (agent_bus.py). */
module Enforce {
  import opened Wrappers
  import opened BusState

  /** What `verify_sender` finds; it may also raise. */
  datatype Auth = Signed | Unsigned | UnsignedPinned | Forged | AuthRaises

  /** How a call judges rows: dev mode not at all, product mode by keys, clock and windows (in seconds). */
  datatype Gate =
    | Dev
    | Product(auth: Msg -> Auth, now: real, past: real, future: real, rollout: bool, grace: real)

  datatype Verdict = Pass | Reject(why: string) | Raise

  const NANO := 1_000_000_000.0
  const CLOCK_SKEW := 300.0

  /** Stamps are nanoseconds; small ones are seconds. */
  function TsSeconds(ts: int): real { if ts > 1_000_000_000_000 then ts as real / NANO else ts as real }

  /** `check` without the replay store: the verdict of a classifier or a peek on an empty store. */
  function Judge(w: World, g: Gate, m: Msg): Verdict
    requires g.Product?
  {
    match g.auth(m)
    case AuthRaises => Raise
    case Unsigned => Reject("unsigned-downgrade")
    case UnsignedPinned => Reject("unsigned-pinned")
    case Forged => Reject("forged")
    case Signed =>
      if g.now - TsSeconds(m.ts) > g.past then Reject("stale-ts")
      else if TsSeconds(m.ts) - g.now > g.future then Reject("future-ts")
      else if m.kind == "attachment" && !w.descriptorOk(m.body) then Reject("attachment-descriptor")
      else Pass
  }

  /** `check` against the agent's store; a recording check adds the key of what it accepts. */
  function Check(w: World, g: Gate, seen: set<(string, string)>, a: string, m: Msg, record: bool)
    : (Verdict, set<(string, string)>)
    requires g.Product?
  {
    var v := Judge(w, g, m);
    if v != Pass then (v, seen)
    else if (a, w.key(m)) in seen then (Reject("replay"), seen)
    else (Pass, if record then seen + {(a, w.key(m))} else seen)
  }

  /** The age of a rejected row by its own stamp, unless the stamp is unusable. */
  function RejectAge(g: Gate, m: Msg): Option<real>
    requires g.Product?
  {
    var age := g.now - TsSeconds(m.ts);
    if m.ts <= 0 || age < -CLOCK_SKEW then None else Some(if age < 0.0 then 0.0 else age)
  }

  predicate Transient(g: Gate, m: Msg, why: string)
    requires g.Product?
  {
    || why == "future-ts"
    || (why == "forged" && (g.rollout || (RejectAge(g, m).Some? && RejectAge(g, m).value <= g.grace)))
  }

  /** `pending_blocking_ids`: may the row still come out, so that the water level must wait for it? */
  predicate Blocks(w: World, g: Gate, m: Msg) {
    g.Dev? || Judge(w, g, m) == Pass || (Judge(w, g, m).Reject? && Transient(g, m, Judge(w, g, m).why))
  }

  /** `_permanent_rejects`: the row can never be delivered. */
  predicate Refused(w: World, g: Gate, m: Msg) { !Blocks(w, g, m) }
}
