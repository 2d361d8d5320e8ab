/** The alert list held by the alert provider: a newest-first sequence of
    at most ten alerts with three operations (add, dismiss, acknowledge).

    The clock reading of `addAlert` is a parameter; the alert's id is the
    decimal text of that reading. */
module AlertList {
  import opened Common

  datatype Severity = Info | Warning | Critical

  datatype Alert = Alert(
    id: string,
    title: string,
    message: string,
    severity: Severity,
    timestamp: int,
    acknowledged: bool,
    processId: Option<string>)

  /** What a caller of `addAlert` supplies: everything but id, timestamp and
      acknowledgement. */
  datatype AlertDraft = AlertDraft(title: string, message: string, severity: Severity, processId: Option<string>)

  const MaxAlerts: nat := 10

  function Digit(d: nat): (c: char)
    requires d < 10
    ensures '0' <= c <= '9'
    ensures (c as int) - ('0' as int) == d
  {
    (('0' as int) + d) as char
  }

  /** `n.toString()` for a non-negative integer. */
  function DecimalString(n: nat): (s: string)
    ensures |s| > 0
    ensures forall i :: 0 <= i < |s| ==> '0' <= s[i] <= '9'
    decreases n
  {
    if n < 10 then [Digit(n)] else DecimalString(n / 10) + [Digit(n % 10)]
  }

  /** Reading a digit string back as a number. */
  function ParseDecimal(s: string): nat
    requires forall i :: 0 <= i < |s| ==> '0' <= s[i] <= '9'
  {
    if |s| == 0 then 0
    else ParseDecimal(s[..|s| - 1]) * 10 + ((s[|s| - 1] as int) - ('0' as int))
  }

  lemma {:induction false} DecimalRoundTrip(n: nat)
    ensures ParseDecimal(DecimalString(n)) == n
    decreases n
  {
    if n >= 10 {
      DecimalRoundTrip(n / 10);
      var s := DecimalString(n);
      assert s[..|s| - 1] == DecimalString(n / 10);
    }
  }

  /** Ids are clock readings: alerts raised at different milliseconds get
      different ids, and alerts raised within one millisecond share one. */
  lemma IdsDistinguishTimes(t1: nat, t2: nat)
    ensures DecimalString(t1) == DecimalString(t2) <==> t1 == t2
  {
    if DecimalString(t1) == DecimalString(t2) {
      DecimalRoundTrip(t1);
      DecimalRoundTrip(t2);
    }
  }

  function NewAlert(draft: AlertDraft, now: nat): Alert {
    Alert(DecimalString(now), draft.title, draft.message, draft.severity, now, false, draft.processId)
  }

  /** `addAlert`: the new, unacknowledged alert goes in front and the list is
      cut back to the ten newest. */
  function AddAlert(alerts: seq<Alert>, draft: AlertDraft, now: nat): (r: seq<Alert>)
    ensures |r| == MinNat(MaxAlerts, |alerts| + 1)
    ensures r[0].id == DecimalString(now) && r[0].timestamp == now && !r[0].acknowledged
    ensures r[0].title == draft.title && r[0].message == draft.message
    ensures r[0].severity == draft.severity && r[0].processId == draft.processId
    ensures r[1..] == alerts[..|r| - 1]
  {
    var all := [NewAlert(draft, now)] + alerts;
    var r := all[..MinNat(MaxAlerts, |all|)];
    assert r[1..] == alerts[..|r| - 1];
    r
  }

  /** The number of alerts carrying `id`. */
  function CountId(alerts: seq<Alert>, id: string): (n: nat)
    ensures n <= |alerts|
  {
    if |alerts| == 0 then 0 else (if alerts[0].id == id then 1 else 0) + CountId(alerts[1..], id)
  }

  /** `dismissAlert`: every alert with the id is removed. */
  function Dismiss(alerts: seq<Alert>, id: string): (r: seq<Alert>)
    ensures |r| == |alerts| - CountId(alerts, id)
    ensures forall i :: 0 <= i < |r| ==> r[i].id != id && r[i] in alerts
    ensures forall i :: 0 <= i < |alerts| && alerts[i].id != id ==> alerts[i] in r
    ensures CountId(alerts, id) == 0 ==> r == alerts
  {
    if |alerts| == 0 then []
    else
      var rest := Dismiss(alerts[1..], id);
      assert forall i :: 1 <= i < |alerts| ==> alerts[i] == alerts[1..][i - 1];
      if alerts[0].id == id then rest else [alerts[0]] + rest
  }

  /** Dismissal works piecewise, so the survivors keep their relative order. */
  lemma {:induction false} DismissConcat(a: seq<Alert>, b: seq<Alert>, id: string)
    ensures Dismiss(a + b, id) == Dismiss(a, id) + Dismiss(b, id)
  {
    if |a| == 0 {
      assert a + b == b;
    } else {
      var ab := a + b;
      assert ab[0] == a[0] && ab[1..] == a[1..] + b;
      DismissConcat(a[1..], b, id);
      var tail := Dismiss(a[1..], id) + Dismiss(b, id);
      if a[0].id == id {
        assert Dismiss(ab, id) == tail;
      } else {
        assert Dismiss(ab, id) == [a[0]] + tail;
        assert Dismiss(a, id) == [a[0]] + Dismiss(a[1..], id);
      }
    }
  }

  /** Dismissing twice is dismissing once. */
  lemma DismissIdempotent(alerts: seq<Alert>, id: string)
    ensures Dismiss(Dismiss(alerts, id), id) == Dismiss(alerts, id)
  {
    var r := Dismiss(alerts, id);
    NoneCarryId(r, id);
  }

  lemma {:induction false} NoneCarryId(alerts: seq<Alert>, id: string)
    requires forall i :: 0 <= i < |alerts| ==> alerts[i].id != id
    ensures CountId(alerts, id) == 0
  {
    if |alerts| > 0 {
      NoneCarryId(alerts[1..], id);
    }
  }

  /** `acknowledgeAlert`: same alerts in the same order; exactly those with
      the id become acknowledged, and nothing else about any alert changes. */
  function Acknowledge(alerts: seq<Alert>, id: string): (r: seq<Alert>)
    ensures |r| == |alerts|
    ensures forall i :: 0 <= i < |r| ==> r[i].acknowledged == (alerts[i].acknowledged || alerts[i].id == id)
    ensures forall i :: 0 <= i < |r| ==> r[i].(acknowledged := alerts[i].acknowledged) == alerts[i]
    ensures CountId(alerts, id) == 0 ==> r == alerts
  {
    var r := seq(|alerts|, i requires 0 <= i < |alerts| =>
      if alerts[i].id == id then alerts[i].(acknowledged := true) else alerts[i]);
    assert CountId(alerts, id) == 0 ==> r == alerts by {
      if CountId(alerts, id) == 0 {
        NoIdCounted(alerts, id);
      }
    }
    r
  }

  lemma {:induction false} NoIdCounted(alerts: seq<Alert>, id: string)
    requires CountId(alerts, id) == 0
    ensures forall i :: 0 <= i < |alerts| ==> alerts[i].id != id
  {
    if |alerts| > 0 {
      NoIdCounted(alerts[1..], id);
      assert forall i :: 1 <= i < |alerts| ==> alerts[i] == alerts[1..][i - 1];
    }
  }

  /** Acknowledging twice is acknowledging once. */
  lemma AcknowledgeIdempotent(alerts: seq<Alert>, id: string)
    ensures Acknowledge(Acknowledge(alerts, id), id) == Acknowledge(alerts, id)
  {
  }

  /** Acknowledging before dismissing the same id makes no difference. */
  lemma {:induction false} DismissAfterAcknowledge(alerts: seq<Alert>, id: string)
    ensures Dismiss(Acknowledge(alerts, id), id) == Dismiss(alerts, id)
  {
    if |alerts| > 0 {
      assert Acknowledge(alerts, id)[1..] == Acknowledge(alerts[1..], id);
      DismissAfterAcknowledge(alerts[1..], id);
    }
  }

  /** The operations of the provider, as a caller issues them. */
  datatype AlertOp = Add(draft: AlertDraft, now: nat) | DismissOp(id: string) | AcknowledgeOp(id: string)

  function Apply(alerts: seq<Alert>, op: AlertOp): seq<Alert> {
    match op
    case Add(draft, now) => AddAlert(alerts, draft, now)
    case DismissOp(id) => Dismiss(alerts, id)
    case AcknowledgeOp(id) => Acknowledge(alerts, id)
  }

  function Replay(alerts: seq<Alert>, ops: seq<AlertOp>): seq<Alert>
    decreases |ops|
  {
    if |ops| == 0 then alerts else Replay(Apply(alerts, ops[0]), ops[1..])
  }

  /** From any list of at most ten alerts, no sequence of operations holds
      more than ten. */
  lemma {:induction false} ReplayKeepsCap(alerts: seq<Alert>, ops: seq<AlertOp>)
    requires |alerts| <= MaxAlerts
    ensures |Replay(alerts, ops)| <= MaxAlerts
    decreases |ops|
  {
    if |ops| > 0 {
      ReplayKeepsCap(Apply(alerts, ops[0]), ops[1..]);
    }
  }

  /** `useAlerts` outside the provider fails. */
  function UseAlerts(provided: Option<seq<Alert>>): (r: Result<seq<Alert>, string>)
    ensures r.Err? <==> provided.None?
    ensures r.Ok? ==> r.value == provided.value
  {
    match provided
    case None => Err("useAlerts must be used within an AlertProvider")
    case Some(a) => Ok(a)
  }
}
