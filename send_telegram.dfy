/**
 * The inquiry relay function: answers CORS preflight, records the inquiry, looks up the
 * staff assigned to the actor and sends one Telegram message per assignment whose staff
 * member has both a bot token and a chat id, collecting one result line per message.
 *
 * The database and the Telegram API are not part of the model: the assignment rows the
 * lookup returns, the outcome of every `fetch` and the error of the insert are inputs, and
 * the calls the handler makes are returned as a log of effects.
 */
module SendTelegram {
  import opened Wrappers
  import opened Text

  const CorsHeaders: map<string, string> := map[
    "Access-Control-Allow-Origin" := "*",
    "Access-Control-Allow-Headers" := "authorization, x-client-info, apikey, content-type, x-supabase-client-platform, x-supabase-client-platform-version, x-supabase-client-runtime, x-supabase-client-runtime-version"
  ]

  const JsonHeaders: map<string, string> := CorsHeaders["Content-Type" := "application/json"]

  /** The JSON body the contact form sends. */
  datatype InquiryBody = InquiryBody(
    actor_id: string,
    actor_name: string,
    sender_name: string,
    organization: Option<string>,
    message: string)

  /** What `await req.json()` yields: the body, or the message of the exception it throws. */
  datatype ParsedBody = Parsed(inquiry: InquiryBody) | Malformed(error: string)

  datatype Request = Request(httpMethod: string, body: ParsedBody)

  /** The joined `staff` record of an assignment row. */
  datatype Staff = Staff(name: string, telegram_token: Option<string>, telegram_chat_id: Option<string>)

  datatype Assignment = Assignment(staff_id: string, assignment_type: string, staff: Option<Staff>)

  /** How one Telegram call ended: a response (its `ok` flag and text), or an exception. */
  datatype FetchOutcome = Responded(ok: bool, text: string) | Threw

  /** The calls the handler makes, in the order it makes them. */
  datatype Effect =
    | InsertInquiry(actor_id: string, name: string, organization: Option<string>, message: string)
    | SelectAssignments(actor_id: string)
    | SendMessage(token: string, chat_id: string, text: string)

  datatype ResponseBody = NoBody | Success(telegram: seq<string>) | Failure(error: string)

  datatype Response = Response(status: nat, body: ResponseBody, headers: map<string, string>)

  /** `staff?.telegram_token && staff?.telegram_chat_id`. */
  predicate HasCredentials(a: Assignment) {
    a.staff.Some? && Present(a.staff.value.telegram_token) && Present(a.staff.value.telegram_chat_id)
  }

  /** The ` / organization` segment, present only for a truthy organization. */
  function OrganizationSegment(organization: Option<string>): string {
    if Present(organization) then " / " + organization.value else ""
  }

  /** The text of the Telegram message for one assignment. */
  function MessageText(actor_name: string, sender_name: string, organization: Option<string>, message: string, assignment_type: string): string {
    "[문의] " + actor_name + "\n👤 " + sender_name + OrganizationSegment(organization)
      + "\n📝 " + message + "\n🏷️ " + assignment_type
  }

  /**
   * The message starts with the actor and sender lines and ends with the body and the
   * assignment label, and it differs from the message without an organization exactly
   * when the organization is truthy.
   */
  lemma MessageTextLayout(actor_name: string, sender_name: string, organization: Option<string>, message: string, assignment_type: string)
    ensures StartsWith(MessageText(actor_name, sender_name, organization, message, assignment_type),
                       "[문의] " + actor_name + "\n👤 " + sender_name)
    ensures var t := MessageText(actor_name, sender_name, organization, message, assignment_type);
            var tail := "\n📝 " + message + "\n🏷️ " + assignment_type;
            |tail| <= |t| && t[|t| - |tail|..] == tail
    ensures MessageText(actor_name, sender_name, organization, message, assignment_type)
              == MessageText(actor_name, sender_name, None, message, assignment_type)
            <==> !Present(organization)
  {
    var head := "[문의] " + actor_name + "\n👤 " + sender_name;
    var tail := "\n📝 " + message + "\n🏷️ " + assignment_type;
    var seg := OrganizationSegment(organization);
    assert MessageText(actor_name, sender_name, organization, message, assignment_type) == head + seg + tail;
    assert MessageText(actor_name, sender_name, None, message, assignment_type) == head + "" + tail;
    ThreePartLayout(head, seg, tail);
    assert seg == "" <==> !Present(organization);
  }

  /** A text made of three parts starts with the first, ends with the last, and loses nothing only when the middle is empty. */
  lemma ThreePartLayout(head: string, mid: string, tail: string)
    ensures StartsWith(head + mid + tail, head)
    ensures |tail| <= |head + mid + tail| && (head + mid + tail)[|head + mid + tail| - |tail|..] == tail
    ensures head + mid + tail == head + "" + tail <==> mid == ""
  {
    var t := head + mid + tail;
    assert t[..|head|] == head;
    assert t[|t| - |tail|..] == tail;
    if mid != "" {
      assert |t| > |head + "" + tail|;
    }
  }

  /** The result line for one call: "<name>: sent", "<name>: <response text>" or "<name>: error". */
  function ResultLine(name: string, outcome: FetchOutcome): string {
    match outcome
    case Responded(ok, text) => name + ": " + (if ok then "sent" else text)
    case Threw => name + ": error"
  }

  /** `telegramResults` after the loop has walked `rows` (`outcomes[k]` is the outcome of row k's call). */
  function TelegramResults(rows: seq<Assignment>, outcomes: seq<FetchOutcome>): seq<string>
    requires |outcomes| == |rows|
  {
    if rows == [] then []
    else
      var n := |rows| - 1;
      TelegramResults(rows[..n], outcomes[..n])
        + (if HasCredentials(rows[n]) then [ResultLine(rows[n].staff.value.name, outcomes[n])] else [])
  }

  /** The Telegram calls the loop makes while walking `rows`. */
  function Sends(rows: seq<Assignment>, b: InquiryBody): seq<Effect> {
    if rows == [] then []
    else
      var n := |rows| - 1;
      var a := rows[n];
      Sends(rows[..n], b)
        + (if HasCredentials(a)
           then [SendMessage(a.staff.value.telegram_token.value, a.staff.value.telegram_chat_id.value,
                             MessageText(b.actor_name, b.sender_name, b.organization, b.message, a.assignment_type))]
           else [])
  }

  /** The positions of the rows whose staff has both credentials, in increasing order. */
  function CredentialedRows(rows: seq<Assignment>): (idx: seq<nat>)
    ensures forall k :: 0 <= k < |idx| ==> idx[k] < |rows| && HasCredentials(rows[idx[k]])
    ensures forall k, l :: 0 <= k < l < |idx| ==> idx[k] < idx[l]
    ensures forall j :: 0 <= j < |rows| && HasCredentials(rows[j]) ==> j in idx
  {
    if rows == [] then []
    else
      var n := |rows| - 1;
      var init := CredentialedRows(rows[..n]);
      assert forall j :: 0 <= j < n ==> rows[..n][j] == rows[j];
      if HasCredentials(rows[n]) then init + [n] else init
  }

  /**
   * One result line per credentialed assignment, in row order: the k-th line belongs to the
   * k-th credentialed row and reports that row's own outcome. Rows without credentials add
   * neither a line nor a call.
   */
  lemma {:induction false} ResultsFollowCredentialedRows(rows: seq<Assignment>, outcomes: seq<FetchOutcome>, b: InquiryBody)
    requires |outcomes| == |rows|
    ensures var idx := CredentialedRows(rows);
            && |TelegramResults(rows, outcomes)| == |idx| == |Sends(rows, b)|
            && forall k :: 0 <= k < |idx| ==>
                 && TelegramResults(rows, outcomes)[k] == ResultLine(rows[idx[k]].staff.value.name, outcomes[idx[k]])
                 && Sends(rows, b)[k] == SendMessage(rows[idx[k]].staff.value.telegram_token.value,
                                                     rows[idx[k]].staff.value.telegram_chat_id.value,
                                                     MessageText(b.actor_name, b.sender_name, b.organization, b.message, rows[idx[k]].assignment_type))
  {
    if rows != [] {
      var n := |rows| - 1;
      ResultsFollowCredentialedRows(rows[..n], outcomes[..n], b);
      var idx0 := CredentialedRows(rows[..n]);
      forall k | 0 <= k < |idx0| ensures rows[..n][idx0[k]] == rows[idx0[k]] && outcomes[..n][idx0[k]] == outcomes[idx0[k]] {
      }
    }
  }

  /**
   * The loop's iterations are independent: the results for two runs of rows are the
   * results for each run, one after the other. In particular a thrown call, which only
   * adds "<name>: error", never stops the rows after it from being tried.
   */
  lemma {:induction false} ResultsAppend(r1: seq<Assignment>, o1: seq<FetchOutcome>, r2: seq<Assignment>, o2: seq<FetchOutcome>)
    requires |o1| == |r1| && |o2| == |r2|
    ensures TelegramResults(r1 + r2, o1 + o2) == TelegramResults(r1, o1) + TelegramResults(r2, o2)
    decreases |r2|
  {
    if r2 == [] {
      assert r1 + r2 == r1 && o1 + o2 == o1;
    } else {
      var n := |r2| - 1;
      assert (r1 + r2)[..|r1| + n] == r1 + r2[..n];
      assert (o1 + o2)[..|o1| + n] == o1 + o2[..n];
      ResultsAppend(r1, o1, r2[..n], o2[..n]);
    }
  }

  /**
   * The request handler. `assignments` is the `data` of the assignment lookup (null when
   * the query failed), `outcomes[k]` how the Telegram call for row k would end, and
   * `insertError` the error the inquiry insert reports, which the handler never looks at.
   */
  method Handle(req: Request, insertError: Option<string>, assignments: Option<seq<Assignment>>, outcomes: seq<FetchOutcome>)
    returns (resp: Response, effects: seq<Effect>)
    requires |outcomes| == |assignments.GetOr([])|
    ensures req.httpMethod == "OPTIONS" ==> resp == Response(200, NoBody, CorsHeaders) && effects == []
    ensures req.httpMethod != "OPTIONS" && req.body.Malformed? ==>
              resp == Response(500, Failure(req.body.error), JsonHeaders) && effects == []
    ensures req.httpMethod != "OPTIONS" && req.body.Parsed? ==>
              var b := req.body.inquiry;
              var rows := assignments.GetOr([]);
              && resp == Response(200, Success(TelegramResults(rows, outcomes)), JsonHeaders)
              && |effects| >= 2
              && effects[0] == InsertInquiry(b.actor_id, b.sender_name, b.organization, b.message)
              && effects[1] == SelectAssignments(b.actor_id)
              && effects[2..] == Sends(rows, b)
  {
    if req.httpMethod == "OPTIONS" {
      return Response(200, NoBody, CorsHeaders), [];
    }
    if req.body.Malformed? {
      return Response(500, Failure(req.body.error), JsonHeaders), [];
    }
    var b := req.body.inquiry;
    // the insert's error is not inspected
    effects := [InsertInquiry(b.actor_id, b.sender_name, b.organization, b.message), SelectAssignments(b.actor_id)];
    var telegramResults: seq<string> := [];
    if assignments.Some? {
      var rows := assignments.value;
      var i := 0;
      while i < |rows|
        invariant 0 <= i <= |rows|
        invariant telegramResults == TelegramResults(rows[..i], outcomes[..i])
        invariant |effects| >= 2 && effects[..2] == [InsertInquiry(b.actor_id, b.sender_name, b.organization, b.message), SelectAssignments(b.actor_id)]
        invariant effects[2..] == Sends(rows[..i], b)
      {
        var a := rows[i];
        assert rows[..i + 1][..i] == rows[..i] && outcomes[..i + 1][..i] == outcomes[..i];
        if HasCredentials(a) {
          var staff := a.staff.value;
          var text := MessageText(b.actor_name, b.sender_name, b.organization, b.message, a.assignment_type);
          effects := effects + [SendMessage(staff.telegram_token.value, staff.telegram_chat_id.value, text)];
          match outcomes[i]
          case Responded(ok, body) =>
            telegramResults := telegramResults + [staff.name + ": " + (if ok then "sent" else body)];
          case Threw =>
            telegramResults := telegramResults + [staff.name + ": error"];
        }
        i := i + 1;
      }
      assert rows[..i] == rows && outcomes[..i] == outcomes;
    }
    resp := Response(200, Success(telegramResults), JsonHeaders);
  }
}
