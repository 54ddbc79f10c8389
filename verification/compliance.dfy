/** What the three compliance handlers share: writing a log entry, and the
    `try` / `catch` around their steps.

    Every awaited store call is a numbered step that may throw. A `Faults`
    value says which step (if any) throws and with what message, and whether
    the log write inside the `catch` block throws as well. */
module Compliance {
  import opened Wrappers
  import opened Records

  datatype Faults = Faults(step: Option<nat>, message: string, catchLogFails: bool)

  const NoFaults: Faults := Faults(None, "", false)

  /** Step `k` throws. */
  predicate FailsAt(f: Faults, k: nat) {
    f.step == Some(k)
  }

  /** One of the steps numbered below `n` throws. */
  predicate FailsBefore(f: Faults, n: nat) {
    f.step.Some? && f.step.value < n
  }

  /** `prisma.webhookLog.create`: one entry appended, nothing else touched. */
  function Log(s: Store, shop: string, topic: string, payload: LogPayload, status: string): (t: Store)
    ensures SameRecords(s, t) && LogExtends(s, t)
    ensures Appended(s, t) == [LogEntry(shop, topic, payload, status)]
  {
    s.(log := s.log + [LogEntry(shop, topic, payload, status)])
  }

  /** The `catch` block: log the error message with status "error" and fall
      through to the 200 reply. Nothing done before the failure is undone.
      Should the error log write throw too, the exception escapes. */
  function Recover(s: Store, shop: string, topic: string, f: Faults, message: string): (r: Handled)
    ensures SameRecords(s, r.store) && LogExtends(s, r.store)
    ensures r.reply == Ok <==> !f.catchLogFails
    ensures r.reply == Ok ==> Statuses(Appended(s, r.store)) == ["error"]
    ensures r.reply == Ok ==> Appended(s, r.store)[0].payload == Error(message)
    ensures r.reply != Ok ==> r == Handled(s, Throws)
  {
    if f.catchLogFails then Handled(s, Throws)
    else Handled(Log(s, shop, topic, Error(message), "error"), Ok)
  }

  /** `a` is `b` cut short: the statuses logged before a failure are a
      prefix of those a complete run logs. */
  predicate IsPrefix(a: seq<string>, b: seq<string>) {
    |a| <= |b| && b[..|a|] == a
  }
}
