/** The ticket lookup endpoint (routes/jira.js): the key format check in
    front of the Jira client. */
module JiraRoutes {
  import opened Wrappers
  import opened Text
  import opened Store
  import opened JiraClient

  /** Length of the run of upper-case letters that starts `s`. */
  function UpperRun(s: string): (n: nat)
    ensures n <= |s|
    ensures forall i :: 0 <= i < n ==> IsUpper(s[i])
    ensures n < |s| ==> !IsUpper(s[n])
  {
    if |s| > 0 && IsUpper(s[0]) then 1 + UpperRun(s[1..]) else 0
  }

  lemma {:induction false} UpperRunCovers(s: string, n: nat)
    requires n <= |s| && forall i :: 0 <= i < n ==> IsUpper(s[i])
    ensures UpperRun(s) >= n
  {
    if n > 0 {
      UpperRunCovers(s[1..], n - 1);
    }
  }

  /** The key test `/^[A-Z]+-\d+$/`, computed: the leading capitals, then
      one hyphen, then digits up to the end, each run non-empty. */
  predicate IsTicketKey(id: string) {
    var n := UpperRun(id);
    0 < n && n + 1 < |id| && id[n] == '-' && DigitRun(id[n + 1..]) == |id| - n - 1
  }

  /** The same test as the regular expression states it: the key splits
      at some hyphen into a non-empty capitals part and a non-empty digits
      part, with nothing before or after. */
  ghost predicate KeyRegex(id: string) {
    exists p :: 0 < p < |id| - 1 && id[p] == '-' && KeyParts(id, p)
  }

  ghost predicate KeyParts(id: string, p: nat)
    requires p < |id|
  {
    (forall i :: 0 <= i < p ==> IsUpper(id[i])) && (forall i :: p < i < |id| ==> IsDigit(id[i]))
  }

  lemma DigitsToEnd(s: string)
    requires forall i :: 0 <= i < |s| ==> IsDigit(s[i])
    ensures DigitRun(s) == |s|
  {
    DigitRunCovers(s, |s|);
  }

  lemma TicketKeyIffRegex(id: string)
    ensures IsTicketKey(id) <==> KeyRegex(id)
  {
    var n := UpperRun(id);
    if IsTicketKey(id) {
      var rest := id[n + 1..];
      forall i | n < i < |id|
        ensures IsDigit(id[i])
      {
        assert id[i] == rest[i - n - 1];
      }
      assert KeyParts(id, n);
    }
    if KeyRegex(id) {
      var p :| 0 < p < |id| - 1 && id[p] == '-' && KeyParts(id, p);
      UpperRunCovers(id, p);
      assert n == p;
      var rest := id[p + 1..];
      assert forall i :: 0 <= i < |rest| ==> rest[i] == id[p + 1 + i];
      DigitsToEnd(rest);
    }
  }

  // The format check on a few keys.

  lemma KeyAccepted()
    ensures IsTicketKey("PROJ-123")
  {
    assert UpperRun("PROJ-123") == 4 by {
      assert UpperRun("-123") == 0;
      assert "PROJ-123"[1..] == "ROJ-123";
      assert "ROJ-123"[1..] == "OJ-123";
      assert "OJ-123"[1..] == "J-123";
      assert "J-123"[1..] == "-123";
    }
    assert "PROJ-123"[5..] == "123";
    DigitsToEnd("123");
  }

  lemma EmptyKeyRejected()
    ensures !IsTicketKey("")
  {
  }

  lemma LowerCaseRejected()
    ensures !IsTicketKey("proj-1")
  {
    assert UpperRun("proj-1") == 0;
  }

  lemma SpaceRejected()
    ensures !IsTicketKey("AB 1-2")
  {
    assert UpperRun("AB 1-2") == 2 by {
      assert "AB 1-2"[1..] == "B 1-2";
      assert "B 1-2"[1..] == " 1-2";
    }
  }

  lemma MissingDigitsRejected()
    ensures !IsTicketKey("ABC-")
  {
    assert UpperRun("ABC-") >= 3 by {
      UpperRunCovers("ABC-", 3);
    }
  }

  lemma MissingLettersRejected()
    ensures !IsTicketKey("-12")
  {
    assert UpperRun("-12") == 0;
  }

  lemma SecondHyphenRejected()
    ensures !IsTicketKey("AB-12-3")
  {
    var s := "AB-12-3";
    assert UpperRun(s) == 2 by {
      assert s[1..] == "B-12-3";
      assert "B-12-3"[1..] == "-12-3";
    }
    assert s[3..] == "12-3";
    assert DigitRun("12-3") == 2 by {
      assert "12-3"[1..] == "2-3";
      assert "2-3"[1..] == "-3";
    }
  }

  const InvalidKeyMessage := "Invalid JIRA ticket ID format. Expected: PROJECT-123"

  /** A reply of the endpoint: its status and its JSON body, a ticket or
      an error. */
  datatype FetchReply = FetchReply(status: nat, body: Result<Ticket, string>)

  /** `POST /fetch`: a missing or malformed key is refused with 400 and no
      lookup; otherwise the client's answer is sent as it is, with status
      200 whether or not it is a success. */
  function FetchRoute(ticketId: Option<string>, configured: bool, response: IssueResponse): FetchReply {
    if ticketId.None? || !IsTicketKey(ticketId.value) then FetchReply(400, Failure(InvalidKeyMessage))
    else FetchReply(200, FetchOutcome(configured, ticketId.value, response))
  }

  /** The endpoint, calling the client. `requested` is the key the client
      looked up, if any. */
  method HandleFetch(jira: JiraClientService, ticketId: Option<string>, response: IssueResponse)
    returns (reply: FetchReply, requested: Option<string>)
    ensures reply == FetchRoute(ticketId, jira.client.Some?, response)
    ensures requested.Some? ==> ticketId.Some? && IsTicketKey(ticketId.value) && requested.value == Upper(ticketId.value)
    ensures ticketId.Some? && IsTicketKey(ticketId.value) && jira.client.Some? ==> requested.Some?
  {
    if ticketId.None? || !IsTicketKey(ticketId.value) {
      return FetchReply(400, Failure(InvalidKeyMessage)), None;
    }
    var result;
    result, requested := jira.FetchTicket(ticketId.value, response);
    reply := FetchReply(200, result);
  }

  /** Status 400 means exactly that the key was missing or malformed; a
      well-formed key always gets 200, with the client's result. */
  lemma FetchRouteStatus(ticketId: Option<string>, configured: bool, response: IssueResponse)
    ensures var r := FetchRoute(ticketId, configured, response);
      && (r.status == 400 <==> ticketId.None? || !IsTicketKey(ticketId.value))
      && (r.status == 400 ==> r.body == Failure(InvalidKeyMessage))
      && (r.status != 400 ==> r.status == 200 && r.body == FetchOutcome(configured, ticketId.value, response))
  {
  }

  /** A key that passes the check is already upper case, so the key looked
      up is the key given. */
  lemma {:induction false} KeyIsUpperCase(id: string)
    requires IsTicketKey(id)
    ensures Upper(id) == id
  {
    var n := UpperRun(id);
    forall i | 0 <= i < |id|
      ensures UpperChar(id[i]) == id[i]
    {
      if i > n {
        assert id[i] == id[n + 1..][i - n - 1];
      }
    }
  }
}
