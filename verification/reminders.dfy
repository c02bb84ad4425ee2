/**
 * One pass of the reminder job (`GET /api/send-reminders`): fetch the
 * appointments whose reminder has not been sent, and for each one, in
 * order, either skip it or send one WhatsApp message through the Z-API
 * gateway, marking the appointment as reminded when the gateway answers ok.
 *
 * The database, the gateway and the clock are inputs: the fetched rows, a
 * clinic-id to settings map, the current hour, the formatted date and time
 * of an appointment, and the gateway's outcome for each appointment.
 */
module Reminders {
  import opened Wrappers
  import opened Template

  type Id = string

  /** The joined `clients ( name, phone )` record. */
  datatype Client = Client(name: Option<string>, phone: Option<string>)

  /** The join as the database hands it back: an object, an array of them, or null. */
  datatype ClientRef = ClientObject(client: Client) | ClientArray(clients: seq<Client>) | ClientNull

  /** A row of `appointments`, with the columns the pass reads and the flag it writes. */
  datatype Appointment = Appointment(
    id: Id,
    appointmentDate: string,
    clinicId: Id,
    clients: ClientRef,
    reminderSent: bool)

  /** A row of `clinic_settings`; every column may be null. */
  datatype Settings = Settings(
    reminderMessage: Option<string>,
    sendHour: Option<int>,
    instanceId: Option<string>,
    token: Option<string>,
    clientToken: Option<string>)

  /**
   * What came of one gateway call: a response (its status was 2xx or not;
   * its body parsed as JSON or not), or an exception from `fetch` itself.
   */
  datatype GatewayOutcome = Replied(ok: bool, bodyParses: bool) | Threw

  /** The world the pass runs in. */
  datatype Env = Env(
    currentHour: nat,
    settings: map<Id, Settings>,
    formatDate: string -> string,
    formatTime: string -> string,
    gateway: Id -> GatewayOutcome)

  /** One POST to `instances/<instanceId>/token/<token>/send-text` with the client token header. */
  datatype Send = Send(instanceId: string, token: string, clientToken: string, phone: string, message: string)

  datatype SkipReason = NoPhone | NoSettings | NotSendHour | IncompleteCredentials

  /** What the loop body does with one appointment. */
  datatype Decision = Skip(reason: SkipReason) | Attempt(send: Send, outcome: GatewayOutcome)

  /** JavaScript truthiness of a nullable string: present and not empty. */
  predicate Truthy(s: Option<string>) {
    s.Some? && s.value != ""
  }

  /** `Array.isArray(clients) ? clients[0] : clients`; `None` stands for null or undefined. */
  function ResolveClient(c: ClientRef): (r: Option<Client>)
    ensures c.ClientObject? ==> r == Some(c.client)
    ensures c.ClientArray? ==> (r.Some? <==> |c.clients| > 0)
    ensures c.ClientArray? && r.Some? ==> r.value == c.clients[0]
    ensures c.ClientNull? ==> r.None?
  {
    match c
    case ClientObject(x) => Some(x)
    case ClientArray(xs) => if |xs| > 0 then Some(xs[0]) else None
    case ClientNull => None
  }

  /** `client.name || ""` */
  function NameOrEmpty(c: Client): string {
    c.name.GetOr("")
  }

  predicate HasPhone(c: Option<Client>) {
    c.Some? && Truthy(c.value.phone)
  }

  predicate CredentialsComplete(s: Settings) {
    Truthy(s.instanceId) && Truthy(s.token) && Truthy(s.clientToken)
  }

  /** `currentHour !== send_hour` is false: a null hour never matches. */
  predicate IsSendHour(env: Env, s: Settings) {
    s.sendHour == Some(env.currentHour as int)
  }

  /** None of the four skip conditions applies to `a`. */
  predicate ReadyToSend(env: Env, a: Appointment) {
    var c := ResolveClient(a.clients);
    && HasPhone(c)
    && a.clinicId in env.settings
    && IsSendHour(env, env.settings[a.clinicId])
    && CredentialsComplete(env.settings[a.clinicId])
  }

  /** The reminder text for `a`, under its clinic's settings `s`, addressed to `c`. */
  function Message(env: Env, a: Appointment, s: Settings, c: Client): string {
    Render(ChooseTemplate(s.reminderMessage), NameOrEmpty(c),
           env.formatDate(a.appointmentDate), env.formatTime(a.appointmentDate))
  }

  /** A client without a name is greeted with the empty string. */
  lemma MissingNameRendersEmpty(env: Env, a: Appointment, s: Settings, c: Client)
    requires c.name.None?
    ensures Message(env, a, s, c)
         == Render(ChooseTemplate(s.reminderMessage), "", env.formatDate(a.appointmentDate), env.formatTime(a.appointmentDate))
  {
  }

  /**
   * The loop body for one appointment: the skip checks in the order the
   * source makes them, then the gateway call.
   */
  function Decide(env: Env, a: Appointment): (d: Decision)
    ensures d.Attempt? <==> ReadyToSend(env, a)
    ensures d == Skip(NoPhone) <==> !HasPhone(ResolveClient(a.clients))
    ensures d == Skip(NoSettings) <==> HasPhone(ResolveClient(a.clients)) && a.clinicId !in env.settings
    ensures d == Skip(NotSendHour) <==>
              HasPhone(ResolveClient(a.clients)) && a.clinicId in env.settings
              && !IsSendHour(env, env.settings[a.clinicId])
    ensures d == Skip(IncompleteCredentials) <==>
              HasPhone(ResolveClient(a.clients)) && a.clinicId in env.settings
              && IsSendHour(env, env.settings[a.clinicId]) && !CredentialsComplete(env.settings[a.clinicId])
    ensures d.Attempt? ==>
              var c := ResolveClient(a.clients).value;
              var s := env.settings[a.clinicId];
              && d.send.phone == c.phone.value
              && d.send.message == Message(env, a, s, c)
              && d.send.instanceId == s.instanceId.value
              && d.send.token == s.token.value
              && d.send.clientToken == s.clientToken.value
              && d.outcome == env.gateway(a.id)
  {
    var c := ResolveClient(a.clients);
    if !HasPhone(c) then Skip(NoPhone)
    else if a.clinicId !in env.settings then Skip(NoSettings)
    else
      var s := env.settings[a.clinicId];
      if !IsSendHour(env, s) then Skip(NotSendHour)
      else if !CredentialsComplete(s) then Skip(IncompleteCredentials)
      else
        var send := Send(s.instanceId.value, s.token.value, s.clientToken.value,
                         c.value.phone.value, Message(env, a, s, c.value));
        Attempt(send, env.gateway(a.id))
  }

  /**
   * The flag is written only when the status is ok AND `response.json()`
   * returned; a body that fails to parse throws into the `catch`.
   */
  predicate Confirmed(o: GatewayOutcome) {
    o == Replied(true, true)
  }

  predicate Marks(d: Decision) {
    d.Attempt? && Confirmed(d.outcome)
  }

  /** The gateway call one decision makes: none for a skip. */
  function SendsOf(d: Decision): seq<Send> {
    if d.Attempt? then [d.send] else []
  }

  /** The id one decision flags: none unless the call was confirmed. */
  function FlagsOf(d: Decision, id: Id): set<Id> {
    if Marks(d) then {id} else {}
  }

  /** The sends and the ids flagged so far. */
  datatype Tally = Tally(sends: seq<Send>, flagged: set<Id>)

  /** One iteration of the `for` loop. */
  function Step(env: Env, acc: Tally, a: Appointment): Tally {
    var d := Decide(env, a);
    Tally(acc.sends + SendsOf(d), acc.flagged + FlagsOf(d, a.id))
  }

  /** The `for` loop: a left fold of `Step` over the appointments, in order. */
  function Fold(env: Env, acc: Tally, appts: seq<Appointment>): Tally
    decreases |appts|
  {
    if |appts| == 0 then acc else Fold(env, Step(env, acc, appts[0]), appts[1..])
  }

  /** The gateway calls a pass over `appts` makes, in order: one per appointment ready to send. */
  function Attempts(env: Env, appts: seq<Appointment>): (r: seq<Send>)
    ensures |r| <= |appts|
    ensures |r| == |appts| <==> forall i :: 0 <= i < |appts| ==> ReadyToSend(env, appts[i])
    ensures forall i :: 0 <= i < |appts| && ReadyToSend(env, appts[i]) ==> Decide(env, appts[i]).send in r
  {
    if |appts| == 0 then []
    else
      var d := Decide(env, appts[0]);
      var rest := Attempts(env, appts[1..]);
      assert forall i :: 1 <= i < |appts| ==> appts[i] == appts[1..][i - 1];
      SendsOf(d) + rest
  }

  /** The ids a pass over `appts` flags: those ready to send whose gateway call was confirmed. */
  function FlaggedIds(env: Env, appts: seq<Appointment>): set<Id> {
    set i | 0 <= i < |appts| && ReadyToSend(env, appts[i]) && Confirmed(env.gateway(appts[i].id)) :: appts[i].id
  }

  /** The first appointment's contribution to the flagged set, and the rest's. */
  lemma FlaggedIdsHead(env: Env, appts: seq<Appointment>)
    requires |appts| > 0
    ensures FlaggedIds(env, appts)
         == FlagsOf(Decide(env, appts[0]), appts[0].id) + FlaggedIds(env, appts[1..])
  {
    var head := FlagsOf(Decide(env, appts[0]), appts[0].id);
    forall id | id in FlaggedIds(env, appts)
      ensures id in head + FlaggedIds(env, appts[1..])
    {
      var i :| 0 <= i < |appts| && ReadyToSend(env, appts[i]) && Confirmed(env.gateway(appts[i].id)) && appts[i].id == id;
      if i > 0 {
        assert appts[1..][i - 1] == appts[i];
      }
    }
    forall id | id in FlaggedIds(env, appts[1..])
      ensures id in FlaggedIds(env, appts)
    {
      var i :| 0 <= i < |appts[1..]| && ReadyToSend(env, appts[1..][i])
               && Confirmed(env.gateway(appts[1..][i].id)) && appts[1..][i].id == id;
      assert appts[i + 1] == appts[1..][i];
    }
  }

  /**
   * The loop, run from any tally, appends exactly the specified sends and
   * adds exactly the specified flags.
   */
  lemma {:induction false} FoldMeetsSpec(env: Env, acc: Tally, appts: seq<Appointment>)
    ensures Fold(env, acc, appts)
         == Tally(acc.sends + Attempts(env, appts), acc.flagged + FlaggedIds(env, appts))
    decreases |appts|
  {
    if |appts| == 0 {
      assert acc.sends + [] == acc.sends;
      assert FlaggedIds(env, appts) == {};
    } else {
      var d := Decide(env, appts[0]);
      var rest := appts[1..];
      FoldMeetsSpec(env, Step(env, acc, appts[0]), rest);
      FlaggedIdsHead(env, appts);
      AppendAssoc(acc.sends, SendsOf(d), Attempts(env, rest));
    }
  }

  lemma AppendAssoc<T>(a: seq<T>, b: seq<T>, c: seq<T>)
    ensures (a + b) + c == a + (b + c)
  {
  }

  /** The outcome of the initial query for `reminder_sent = false` rows. */
  datatype Fetch = FetchFailed | Fetched(rows: Option<seq<Appointment>>)

  /** The JSON the endpoint answers with: `{ error: true }` or `{ success: true }`. */
  datatype Body = ErrorBody | SuccessBody

  datatype PassResult = PassResult(body: Body, sends: seq<Send>, flagged: set<Id>)

  /** One whole pass: the early exits, then the loop. */
  function Dispatch(env: Env, fetch: Fetch): (r: PassResult)
    ensures fetch.FetchFailed? ==> r == PassResult(ErrorBody, [], {})
    ensures fetch.Fetched? ==> r.body == SuccessBody
    ensures fetch == Fetched(None) || fetch == Fetched(Some([])) ==> r.sends == [] && r.flagged == {}
    ensures fetch.Fetched? && fetch.rows.Some? ==>
              var appts := fetch.rows.value;
              && r.sends == Attempts(env, appts)
              && |r.sends| <= |appts|
              && forall id :: id in r.flagged <==>
                   exists i :: 0 <= i < |appts| && appts[i].id == id
                               && ReadyToSend(env, appts[i]) && Confirmed(env.gateway(appts[i].id))
  {
    match fetch
    case FetchFailed => PassResult(ErrorBody, [], {})
    case Fetched(None) => PassResult(SuccessBody, [], {})
    case Fetched(Some(appts)) =>
      if |appts| == 0 then PassResult(SuccessBody, [], {})
      else
        var t := Fold(env, Tally([], {}), appts);
        FoldMeetsSpec(env, Tally([], {}), appts);
        PassResult(SuccessBody, t.sends, t.flagged)
  }

  /** Per-appointment isolation: a pass over two lists is the passes over each, one after the other. */
  lemma {:induction false} AttemptsAppend(env: Env, xs: seq<Appointment>, ys: seq<Appointment>)
    ensures Attempts(env, xs + ys) == Attempts(env, xs) + Attempts(env, ys)
    decreases |xs|
  {
    if |xs| == 0 {
      assert xs + ys == ys;
    } else {
      assert (xs + ys)[1..] == xs[1..] + ys;
      AttemptsAppend(env, xs[1..], ys);
    }
  }

  /** Every send goes to the phone of an appointment ready to send, with that appointment's message. */
  lemma {:induction false} AttemptsComeFromReadyAppointments(env: Env, appts: seq<Appointment>)
    ensures forall s :: s in Attempts(env, appts) ==>
              exists i :: 0 <= i < |appts| && ReadyToSend(env, appts[i])
                          && var c := ResolveClient(appts[i].clients).value;
                             s.phone == c.phone.value
                             && s.message == Message(env, appts[i], env.settings[appts[i].clinicId], c)
    decreases |appts|
  {
    if |appts| > 0 {
      AttemptsComeFromReadyAppointments(env, appts[1..]);
      forall s | s in Attempts(env, appts)
        ensures exists i :: 0 <= i < |appts| && ReadyToSend(env, appts[i])
                            && var c := ResolveClient(appts[i].clients).value;
                               s.phone == c.phone.value
                               && s.message == Message(env, appts[i], env.settings[appts[i].clinicId], c)
      {
        var d := Decide(env, appts[0]);
        if d.Attempt? && s == d.send {
        } else {
          assert s in Attempts(env, appts[1..]);
          var j :| 0 <= j < |appts[1..]| && ReadyToSend(env, appts[1..][j])
                   && var c := ResolveClient(appts[1..][j].clients).value;
                      s.phone == c.phone.value
                      && s.message == Message(env, appts[1..][j], env.settings[appts[1..][j].clinicId], c);
          assert appts[j + 1] == appts[1..][j];
        }
      }
    }
  }

  /**
   * When the hour matches no clinic's `send_hour`, the pass sends nothing
   * and flags nothing.
   */
  lemma {:induction false} OffHourPassIsSilent(env: Env, appts: seq<Appointment>)
    requires forall i :: 0 <= i < |appts| && appts[i].clinicId in env.settings ==>
               !IsSendHour(env, env.settings[appts[i].clinicId])
    ensures Dispatch(env, Fetched(Some(appts))).sends == []
    ensures Dispatch(env, Fetched(Some(appts))).flagged == {}
    decreases |appts|
  {
    if |appts| > 0 {
      OffHourPassIsSilent(env, appts[1..]);
      assert !ReadyToSend(env, appts[0]);
    }
  }

  /**
   * The gateway's answer for one appointment decides nothing about any
   * other: two worlds that differ only in that answer make the same
   * sends and flag the same other ids.
   */
  lemma GatewayIsolation(env: Env, env': Env, x: Id, appts: seq<Appointment>)
    requires env'.currentHour == env.currentHour && env'.settings == env.settings
    requires env'.formatDate == env.formatDate && env'.formatTime == env.formatTime
    requires forall id :: id != x ==> env'.gateway(id) == env.gateway(id)
    ensures Dispatch(env', Fetched(Some(appts))).sends == Dispatch(env, Fetched(Some(appts))).sends
    ensures Dispatch(env', Fetched(Some(appts))).flagged - {x} == Dispatch(env, Fetched(Some(appts))).flagged - {x}
  {
    AttemptsSameBeyondGateway(env, env', appts);
  }

  /** The sends never depend on the gateway's answers. */
  lemma {:induction false} AttemptsSameBeyondGateway(env: Env, env': Env, appts: seq<Appointment>)
    requires env'.currentHour == env.currentHour && env'.settings == env.settings
    requires env'.formatDate == env.formatDate && env'.formatTime == env.formatTime
    ensures Attempts(env', appts) == Attempts(env, appts)
    decreases |appts|
  {
    if |appts| > 0 {
      AttemptsSameBeyondGateway(env, env', appts[1..]);
    }
  }

  /**
   * Two appointments ready to send, the first refused or failed by the
   * gateway and the second confirmed: both are attempted, only the second
   * is flagged.
   */
  lemma PartialFailure(env: Env, a: Appointment, b: Appointment)
    requires a.id != b.id
    requires ReadyToSend(env, a) && ReadyToSend(env, b)
    requires !Confirmed(env.gateway(a.id)) && Confirmed(env.gateway(b.id))
    ensures |Dispatch(env, Fetched(Some([a, b]))).sends| == 2
    ensures Dispatch(env, Fetched(Some([a, b]))).flagged == {b.id}
  {
    var r := Dispatch(env, Fetched(Some([a, b])));
    assert [a, b][1..] == [b];
    assert [b][1..] == [];
    forall id | id in r.flagged ensures id == b.id {
      var i :| 0 <= i < 2 && [a, b][i].id == id && ReadyToSend(env, [a, b][i]) && Confirmed(env.gateway([a, b][i].id));
    }
    assert [a, b][1].id == b.id;
  }

  /**
   * The worked scenario: one appointment, hour 9 configured and current,
   * phone and credentials present, gateway confirms: exactly one call, to
   * that phone, and the appointment is flagged.
   */
  lemma SingleReadyAppointment(env: Env, a: Appointment)
    requires ReadyToSend(env, a) && Confirmed(env.gateway(a.id))
    ensures |Dispatch(env, Fetched(Some([a]))).sends| == 1
    ensures Dispatch(env, Fetched(Some([a]))).sends[0].phone == ResolveClient(a.clients).value.phone.value
    ensures Dispatch(env, Fetched(Some([a]))).flagged == {a.id}
  {
  }

  /**
   * The call is made but the flag is not set when the status is not ok,
   * when `response.json()` throws on an ok status, or when `fetch` throws.
   */
  lemma UnconfirmedNotFlagged(env: Env, a: Appointment)
    requires ReadyToSend(env, a)
    requires || env.gateway(a.id) == Replied(true, false)
             || (env.gateway(a.id).Replied? && !env.gateway(a.id).ok)
             || env.gateway(a.id) == Threw
    ensures |Dispatch(env, Fetched(Some([a]))).sends| == 1
    ensures Dispatch(env, Fetched(Some([a]))).flagged == {}
  {
    assert [a][1..] == [];
  }

  /** `.eq("reminder_sent", false)`: the rows the pass is given, in table order. */
  function Pending(table: seq<Appointment>): (r: seq<Appointment>)
    ensures |r| <= |table|
    ensures forall a :: a in r <==> a in table && !a.reminderSent
    ensures forall a :: multiset(r)[a] == (if a.reminderSent then 0 else multiset(table)[a])
  {
    if |table| == 0 then []
    else
      assert table == [table[0]] + table[1..];
      (if table[0].reminderSent then [] else [table[0]]) + Pending(table[1..])
  }

  /** `.update({ reminder_sent: true }).eq("id", id)` for every flagged id. */
  function MarkSent(table: seq<Appointment>, ids: set<Id>): (r: seq<Appointment>)
    ensures |r| == |table|
    ensures forall i :: 0 <= i < |table| ==>
              r[i].reminderSent == (table[i].reminderSent || table[i].id in ids)
    ensures forall i :: 0 <= i < |table| ==> r[i].(reminderSent := table[i].reminderSent) == table[i]
  {
    seq(|table|, i requires 0 <= i < |table| =>
          if table[i].id in ids then table[i].(reminderSent := true) else table[i])
  }

  /**
   * A pass against the `appointments` table: the query (which may fail),
   * the dispatch, and the table as the flag updates leave it. The result
   * of each update is discarded by the source; `landed(id)` says whether
   * the update for `id` took effect.
   */
  function Run(env: Env, table: seq<Appointment>, fetchFails: bool, landed: Id -> bool): (r: (PassResult, seq<Appointment>))
    ensures |r.1| == |table|
    ensures forall i :: 0 <= i < |table| && r.1[i] != table[i] ==> table[i].id in r.0.flagged && landed(table[i].id)
  {
    var r := Dispatch(env, if fetchFails then FetchFailed else Fetched(Some(Pending(table))));
    (r, MarkSent(table, set id | id in r.flagged && landed(id)))
  }

  /**
   * Only the flag moves, and only from false to true: no row is added or
   * removed and no other column changes.
   */
  lemma RunOnlySetsFlags(env: Env, table: seq<Appointment>, fetchFails: bool, landed: Id -> bool)
    ensures |Run(env, table, fetchFails, landed).1| == |table|
    ensures forall i :: 0 <= i < |table| ==>
              var after := Run(env, table, fetchFails, landed).1[i];
              after == table[i] || (!table[i].reminderSent && after == table[i].(reminderSent := true))
  {
  }

  /**
   * A row whose flag moves belongs to an appointment that was fetched as
   * pending, was ready to send, and whose gateway call was confirmed.
   */
  lemma RunChangeIsConfirmed(env: Env, table: seq<Appointment>, fetchFails: bool, landed: Id -> bool, i: nat)
    requires i < |table| && Run(env, table, fetchFails, landed).1[i] != table[i]
    ensures !fetchFails
    ensures exists k :: 0 <= k < |Pending(table)| && Pending(table)[k].id == table[i].id
                        && ReadyToSend(env, Pending(table)[k]) && Confirmed(env.gateway(Pending(table)[k].id))
  {
  }

  /** A pass makes at most one call per pending row, and so at most one per table row. */
  lemma RunSendsAtMostOncePerRow(env: Env, table: seq<Appointment>, fetchFails: bool, landed: Id -> bool)
    ensures |Run(env, table, fetchFails, landed).0.sends| <= |Pending(table)| <= |table|
  {
  }

  /** No flag ever goes from true back to false. */
  lemma RunKeepsSentFlags(env: Env, table: seq<Appointment>, fetchFails: bool, landed: Id -> bool)
    ensures forall i :: 0 <= i < |table| && table[i].reminderSent ==> Run(env, table, fetchFails, landed).1[i].reminderSent
  {
  }

  /** A failed query leaves the table untouched and reports the error. */
  lemma RunFetchFailure(env: Env, table: seq<Appointment>, landed: Id -> bool)
    ensures Run(env, table, true, landed) == (PassResult(ErrorBody, [], {}), table)
  {
    var none: set<Id> := {};
    assert Dispatch(env, FetchFailed).flagged == none;
    assert (set id | id in none && landed(id)) == none;
    assert MarkSent(table, {}) == table;
  }

  /**
   * An appointment flagged by one pass, whose flag update took effect, is
   * no longer pending, so the next pass does not message it again.
   */
  lemma FlaggedNotPendingAfter(env: Env, table: seq<Appointment>, fetchFails: bool, landed: Id -> bool)
    ensures forall a :: a in Pending(Run(env, table, fetchFails, landed).1) ==>
              !(a.id in Run(env, table, fetchFails, landed).0.flagged && landed(a.id))
  {
  }

  /**
   * The source ignores a failed flag update: the appointment was messaged
   * but stays pending, and the next pass messages it again.
   */
  lemma FailedUpdateStaysPending(env: Env, table: seq<Appointment>, fetchFails: bool, landed: Id -> bool, i: nat)
    requires i < |table| && !table[i].reminderSent && !landed(table[i].id)
    ensures Run(env, table, fetchFails, landed).1[i] in Pending(Run(env, table, fetchFails, landed).1)
  {
  }
}
