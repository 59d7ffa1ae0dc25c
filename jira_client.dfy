/** The Jira client service (services/jira-client.js): connection set-up
    from the settings table, the ticket record built from an issue, the
    plain text of Atlassian Document Format descriptions, acceptance
    criteria extraction, error rewriting and search queries. The Jira
    library's calls are inputs: the issue it returns, or its error. */
module JiraClient {
  import opened Wrappers
  import opened Text
  import opened Store

  // ------------------------------------------------- document format text

  /** A node of an Atlassian Document Format tree. `NullNode` is a null
      entry of a `content` array. A missing `content` and an empty one
      give the same text, so both are the empty sequence here. */
  datatype Node = NullNode | Node(text: string, content: seq<Node>)

  /** An issue's `description` field: absent, a plain string, or a
      document whose top-level nodes are `content`. */
  datatype Adf = NoAdf | AdfString(s: string) | AdfDoc(content: seq<Node>)

  /** `extractTextFromNode`: a node's own text when it has some, otherwise
      its children's texts joined with no separator. */
  function NodeText(n: Node): string
    decreases n
  {
    match n
    case NullNode => ""
    case Node(t, cs) => if t != "" then t else ChildrenText(cs)
  }

  /** `content.map(extractTextFromNode).join('')`. */
  function ChildrenText(cs: seq<Node>): string
    decreases cs
  {
    if |cs| == 0 then "" else NodeText(cs[0]) + ChildrenText(cs[1..])
  }

  /** Some node of the tree carries non-empty text. */
  predicate HasText(n: Node)
    decreases n
  {
    n.Node? && (n.text != "" || exists i :: 0 <= i < |n.content| && HasText(n.content[i]))
  }

  /** A node yields no text exactly when no node of its tree has any: the
      first text-bearing node met on any path always contributes. */
  lemma {:induction false} NodeTextEmptyIff(n: Node)
    ensures NodeText(n) == "" <==> !HasText(n)
    decreases n
  {
    match n
    case NullNode =>
    case Node(t, cs) =>
      if t == "" {
        ChildrenTextEmptyIff(cs);
      }
  }

  lemma {:induction false} ChildrenTextEmptyIff(cs: seq<Node>)
    ensures ChildrenText(cs) == "" <==> forall i :: 0 <= i < |cs| ==> !HasText(cs[i])
    decreases cs
  {
    if |cs| > 0 {
      NodeTextEmptyIff(cs[0]);
      ChildrenTextEmptyIff(cs[1..]);
      assert ChildrenText(cs) == NodeText(cs[0]) + ChildrenText(cs[1..]);
      if forall i :: 0 <= i < |cs| ==> !HasText(cs[i]) {
        assert forall i :: 0 <= i < |cs[1..]| ==> !HasText(cs[1..][i]);
      } else {
        var i :| 0 <= i < |cs| && HasText(cs[i]);
        if i > 0 {
          assert HasText(cs[1..][i - 1]);
        }
      }
    }
  }

  /** Joining children's texts distributes over splitting the children. */
  lemma {:induction false} ChildrenTextAppend(a: seq<Node>, b: seq<Node>)
    ensures ChildrenText(a + b) == ChildrenText(a) + ChildrenText(b)
    decreases |a|
  {
    if |a| == 0 {
      assert a + b == b;
    } else {
      ChildrenTextAppend(a[1..], b);
      assert (a + b)[0] == a[0];
      assert (a + b)[1..] == a[1..] + b;
      var x, y, z := NodeText(a[0]), ChildrenText(a[1..]), ChildrenText(b);
      assert ChildrenText(a + b) == x + (y + z);
      assert ChildrenText(a) == x + y;
      assert x + (y + z) == (x + y) + z;
    }
  }

  /** Each top-level node's text followed by a line feed. */
  function DocText(ns: seq<Node>): string {
    if |ns| == 0 then "" else NodeText(ns[0]) + "\n" + DocText(ns[1..])
  }

  lemma {:induction false} DocTextPush(ns: seq<Node>, n: Node)
    ensures DocText(ns + [n]) == DocText(ns) + NodeText(n) + "\n"
  {
    if |ns| > 0 {
      DocTextPush(ns[1..], n);
      assert (ns + [n])[1..] == ns[1..] + [n];
    }
  }

  /** What `extractTextFromADF` returns. */
  function DescriptionText(adf: Adf): string {
    match adf
    case NoAdf => ""
    case AdfString(s) => s
    case AdfDoc(ns) => Trim(DocText(ns))
  }

  /** `extractTextFromADF`: a string comes back unchanged; a document's
      top-level texts are appended one by one, each with a line feed, and
      the whole is trimmed. */
  method ExtractTextFromAdf(adf: Adf) returns (r: string)
    ensures r == DescriptionText(adf)
  {
    match adf {
      case NoAdf =>
        return "";
      case AdfString(s) =>
        return s;
      case AdfDoc(ns) =>
        var text := "";
        for i := 0 to |ns|
          invariant text == DocText(ns[..i])
        {
          DocTextPush(ns[..i], ns[i]);
          assert ns[..i + 1] == ns[..i] + [ns[i]];
          text := text + NodeText(ns[i]) + "\n";
        }
        assert ns[..|ns|] == ns;
        return Trim(text);
    }
  }

  function Texts(ns: seq<Node>): (r: seq<string>)
    ensures |r| == |ns|
    ensures forall i :: 0 <= i < |ns| ==> r[i] == NodeText(ns[i])
  {
    seq(|ns|, i requires 0 <= i < |ns| => NodeText(ns[i]))
  }

  /** Before trimming, the document text splits back into the top-level
      nodes' texts, one per line, when none of them holds a line feed. */
  lemma {:induction false} DocTextLines(ns: seq<Node>)
    requires forall i :: 0 <= i < |ns| ==> '\n' !in NodeText(ns[i])
    ensures Split(DocText(ns), '\n') == Texts(ns) + [""]
  {
    if |ns| > 0 {
      DocTextLines(ns[1..]);
      SplitAfterPiece(NodeText(ns[0]), '\n', DocText(ns[1..]));
      assert Texts(ns) == [NodeText(ns[0])] + Texts(ns[1..]);
    }
  }

  // ------------------------------------------------- acceptance criteria

  /** The label searched for, in the upper case the comparison folds to. */
  const AcLabel := "ACCEPTANCE CRITERIA"

  /** `s` holds `pat` at `i` when compared case-insensitively (`pat` is
      upper case). */
  predicate OccursFolded(s: string, pat: string, i: int) {
    0 <= i && i + |pat| <= |s| && forall k :: 0 <= k < |pat| ==> UpperChar(s[i + k]) == pat[k]
  }

  /** The leftmost case-insensitive occurrence of `pat` at or after `from`. */
  function FindFolded(s: string, pat: string, from: nat): (r: Option<nat>)
    ensures r.Some? ==> from <= r.value && OccursFolded(s, pat, r.value)
    ensures forall i :: from <= i && (r.None? || i < r.value) ==> !OccursFolded(s, pat, i)
    decreases |s| - from
  {
    if from + |pat| > |s| then None
    else if OccursFolded(s, pat, from) then Some(from)
    else FindFolded(s, pat, from + 1)
  }

  /** Where the lookahead `(?=\n\n|$)` holds: before two line feeds or at
      the end of the input (no `m` flag, so `$` is the end only). */
  predicate Boundary(s: string, e: int) {
    e == |s| || (0 <= e && e + 2 <= |s| && s[e] == '\n' && s[e + 1] == '\n')
  }

  /** The first boundary at or after `from`. */
  function NextBoundary(s: string, from: nat): (e: nat)
    requires from <= |s|
    ensures from <= e <= |s| && Boundary(s, e)
    ensures forall j :: from <= j < e ==> !Boundary(s, j)
    decreases |s| - from
  {
    if Boundary(s, from) then from else NextBoundary(s, from + 1)
  }

  /** The span a match of `/acceptance criteria:?(.+?)(?=\n\n|$)/is`
      captures: the label's position, and the captured group's bounds. */
  datatype Capture = Capture(at: nat, start: nat, end: nat)

  /** The regular expression's match. The label is found leftmost; the
      optional colon is taken whenever something follows it (the greedy
      `:?`), otherwise the lazy group starts at the colon; the group takes
      at least one character (`.` matches line feeds under `s`) and stops
      at the first boundary after that. When the label is the last thing
      in the text nothing can follow it, and no later label exists. */
  function AcMatch(s: string): (m: Option<Capture>)
    ensures m.None? <==>
      forall p :: 0 <= p && OccursFolded(s, AcLabel, p) ==> p + |AcLabel| == |s|
    ensures m.Some? ==>
      && OccursFolded(s, AcLabel, m.value.at)
      && (forall p :: 0 <= p < m.value.at ==> !OccursFolded(s, AcLabel, p))
      && m.value.start == m.value.at + |AcLabel| +
           (if s[m.value.at + |AcLabel|] == ':' && m.value.at + |AcLabel| + 1 < |s| then 1 else 0)
      && m.value.start < m.value.end <= |s|
      && Boundary(s, m.value.end)
      && (forall j :: m.value.start < j < m.value.end ==> !Boundary(s, j))
  {
    match FindFolded(s, AcLabel, 0)
    case None => None
    case Some(p) =>
      var q0 := p + |AcLabel|;
      if q0 == |s| then None
      else
        var q := if s[q0] == ':' && q0 + 1 < |s| then q0 + 1 else q0;
        Some(Capture(p, q, NextBoundary(s, q + 1)))
  }

  /** `extractAcceptanceCriteria`: the captured group, trimmed, or "". */
  function AcceptanceCriteria(description: string): (r: string)
    ensures AcMatch(description).None? ==> r == ""
    ensures IsTrimmed(r)
  {
    match AcMatch(description)
    case None => ""
    case Some(c) => Trim(description[c.start..c.end])
  }

  /** A description without the label has no acceptance criteria. */
  lemma NoLabelNoCriteria(description: string)
    requires forall p :: !OccursFolded(description, AcLabel, p)
    ensures AcceptanceCriteria(description) == ""
  {
  }

  /** The criteria once the label's first position and the capture's
      bounds are known. */
  lemma CriteriaFromCapture(s: string, p: nat, q: nat, e: nat)
    requires FindFolded(s, AcLabel, 0) == Some(p) && p + |AcLabel| < |s|
    requires q == if s[p + |AcLabel|] == ':' && p + |AcLabel| + 1 < |s| then p + |AcLabel| + 1 else p + |AcLabel|
    requires NextBoundary(s, q + 1) == e
    ensures AcceptanceCriteria(s) == Trim(s[q..e])
  {
    assert AcMatch(s) == Some(Capture(p, q, e));
  }

  const CriteriaExample := "Acceptance Criteria: works\n\nmore"

  lemma CriteriaExampleLabel()
    ensures FindFolded(CriteriaExample, AcLabel, 0) == Some(0)
  {
    assert OccursFolded(CriteriaExample, AcLabel, 0);
  }

  lemma CriteriaExampleBoundary()
    ensures NextBoundary(CriteriaExample, 21) == 26
  {
    var s := CriteriaExample;
    assert !Boundary(s, 21) && !Boundary(s, 22) && !Boundary(s, 23) && !Boundary(s, 24) && !Boundary(s, 25);
    assert Boundary(s, 26);
  }

  /** The text after the label up to the next blank line is taken, with
      the colon and surrounding blanks dropped. */
  lemma CriteriaUpToBlankLine()
    ensures AcceptanceCriteria(CriteriaExample) == "works"
  {
    var s := CriteriaExample;
    CriteriaExampleLabel();
    CriteriaExampleBoundary();
    CriteriaExampleColon();
    CriteriaFromCapture(s, 0, 20, 26);
    CriteriaExampleTrim();
  }

  lemma CriteriaExampleColon()
    ensures CriteriaExample[19] == ':' && 20 < |CriteriaExample|
  {
  }

  lemma CriteriaExampleTrim()
    ensures Trim(CriteriaExample[20..26]) == "works"
  {
    assert CriteriaExample[20..26] == [' '] + "works";
    TrimAfterSpace(' ', "works");
  }

  /** When the colon is the last character, the lazy group starts at the
      colon and the criteria are ":" rather than empty. */
  lemma ColonAtEndGivesColon()
    ensures AcceptanceCriteria("acceptance criteria:") == ":"
  {
    var s := "acceptance criteria:";
    assert OccursFolded(s, AcLabel, 0);
    assert FindFolded(s, AcLabel, 0) == Some(0);
    assert NextBoundary(s, 20) == 20;
    assert s[19..20] == ":";
  }

  // ------------------------------------------------------ ticket record

  /** The fields of an issue that `fetchTicket` reads. A missing priority,
      status or assignee object and one without a name are both `None`. */
  datatype Issue = Issue(
    id: string,
    key: string,
    summary: string,
    description: Adf,
    priorityName: Option<string>,
    statusName: Option<string>,
    assigneeName: Option<string>,
    labels: Option<seq<string>>)

  /** The ticket record built from an issue, with its field defaults. */
  function TicketOf(issue: Issue): (t: Ticket)
    ensures t.priority == OrElse(issue.priorityName.GetOr(""), "Unknown")
    ensures t.status == OrElse(issue.statusName.GetOr(""), "Unknown")
    ensures t.assignee == OrElse(issue.assigneeName.GetOr(""), "Unassigned")
    ensures t.labels == issue.labels.GetOr([])
    ensures t.description == DescriptionText(issue.description)
    ensures t.acceptanceCriteria == AcceptanceCriteria(t.description)
    ensures t.priority != "" && t.status != "" && t.assignee != ""
  {
    var description := DescriptionText(issue.description);
    Ticket(
      issue.id,
      issue.key,
      issue.summary,
      description,
      OrElse(issue.priorityName.GetOr(""), "Unknown"),
      OrElse(issue.statusName.GetOr(""), "Unknown"),
      OrElse(issue.assigneeName.GetOr(""), "Unassigned"),
      issue.labels.GetOr([]),
      AcceptanceCriteria(description))
  }

  // ----------------------------------------------------- error messages

  const NotConfiguredMessage := "JIRA client not configured"
  const AuthFailedMessage := "Authentication failed. Please check your JIRA API token."

  function NotFoundMessage(ticketKey: string): string {
    "Ticket \"" + ticketKey + "\" not found or you don't have permission to view it."
  }

  /** The error rewriting of `fetchTicket`: a missing issue is reported
      with the key as the caller wrote it, a 401 as an authentication
      failure, anything else unchanged; the first rule wins. */
  function RewriteError(message: string, ticketKey: string): (r: string)
    ensures Contains(message, "Issue does not exist") ==> r == NotFoundMessage(ticketKey)
    ensures !Contains(message, "Issue does not exist") && Contains(message, "401") ==> r == AuthFailedMessage
    ensures !Contains(message, "Issue does not exist") && !Contains(message, "401") ==> r == message
  {
    if Contains(message, "Issue does not exist") then NotFoundMessage(ticketKey)
    else if Contains(message, "401") then AuthFailedMessage
    else message
  }

  /** The not-configured error mentions neither rule, so it passes through. */
  lemma NotConfiguredPassesThrough(ticketKey: string)
    ensures RewriteError(NotConfiguredMessage, ticketKey) == NotConfiguredMessage
  {
    var m := NotConfiguredMessage;
    forall i | 0 <= i ensures !OccursAt(m, "401", i) {
      if i + 3 <= |m| {
        assert m[i..i + 3][0] == m[i];
      }
    }
    forall i | 0 <= i ensures !OccursAt(m, "Issue does not exist", i) {
      if i + 20 <= |m| {
        assert m[i..i + 20][6] == m[i + 6];
      }
    }
  }

  // --------------------------------------------------------- host names

  /** The host cleanup of `initializeClient`: trim, drop the first
      "https://", then the first "http://", then one trailing slash. */
  function CleanHost(baseUrl: string): string {
    var t := Trim(baseUrl);
    var a := ReplaceFirst(t, "https://", "");
    var b := ReplaceFirst(a, "http://", "");
    if EndsWith(b, "/") then b[..|b| - 1] else b
  }

  /** A bare host name, possibly with a port: no slash and no surrounding
      blanks. */
  predicate IsHostName(h: string) {
    h != "" && IsTrimmed(h) && '/' !in h
  }

  /** No two slashes in a row; both schemes end with "//". */
  predicate NoDoubleSlash(s: string) {
    forall j :: 0 <= j < |s| - 1 && s[j] == '/' ==> s[j + 1] != '/'
  }

  lemma HostNoDoubleSlash(h: string, trailingSlash: bool)
    requires '/' !in h
    ensures NoDoubleSlash(h + SlashText(trailingSlash))
  {
    var a := h + SlashText(trailingSlash);
    forall j | 0 <= j < |a| - 1
      ensures a[j] != '/'
    {
      assert a[j] == h[j];
    }
  }

  lemma NoSchemeIn(s: string, pat: string, k: nat)
    requires NoDoubleSlash(s)
    requires k + 1 < |pat| && pat[k] == '/' && pat[k + 1] == '/'
    ensures !Contains(s, pat)
  {
    forall i | 0 <= i ensures !OccursAt(s, pat, i) {
      if i + |pat| <= |s| {
        assert s[i..i + |pat|][k] == s[i + k];
        assert s[i..i + |pat|][k + 1] == s[i + k + 1];
      }
    }
  }

  lemma DropLeading(p: string, rest: string)
    requires p != ""
    ensures ReplaceFirst(p + rest, p, "") == rest
  {
    var s := p + rest;
    assert s[..|p|] == p;
    IndexOfLeftmost(s, p, 0);
    assert s[|p|..] == rest;
  }

  lemma HttpIsNotHttps(a: string)
    requires NoDoubleSlash(a)
    ensures !Contains("http://" + a, "https://")
  {
    var u := "http://" + a;
    forall i | 0 <= i ensures !OccursAt(u, "https://", i) {
      if i + 8 <= |u| {
        assert u[i..i + 8][4] == u[i + 4];
        if i >= 1 {
          assert u[i..i + 8][6] == u[i + 6] == a[i - 1];
          assert u[i..i + 8][7] == u[i + 7] == a[i];
        }
      }
    }
  }

  /** How a base URL may start. */
  datatype Scheme = NoScheme | Http | Https

  function SchemeText(sc: Scheme): string {
    match sc
    case NoScheme => ""
    case Http => "http://"
    case Https => "https://"
  }

  function SlashText(trailingSlash: bool): string {
    if trailingSlash then "/" else ""
  }

  lemma CleanHostOfHost(h: string, trailingSlash: bool)
    requires IsHostName(h)
    ensures ReplaceFirst(h + SlashText(trailingSlash), "http://", "") == h + SlashText(trailingSlash)
    ensures var a := h + SlashText(trailingSlash);
      (if EndsWith(a, "/") then a[..|a| - 1] else a) == h
  {
    var a := h + SlashText(trailingSlash);
    HostNoDoubleSlash(h, trailingSlash);
    NoSchemeIn(a, "http://", 5);
    if !trailingSlash {
      assert a == h;
      assert !EndsWith(a, "/") by { assert a[|a| - 1] == h[|h| - 1]; }
    } else {
      assert a[|a| - 1..] == "/";
      assert a[..|a| - 1] == h;
    }
  }

  /** Cleaning up a trimmed URL once the two replacements are known. */
  lemma CleanHostSteps(u: string, mid: string, h: string, trailingSlash: bool)
    requires IsTrimmed(u) && ReplaceFirst(u, "https://", "") == mid
    requires ReplaceFirst(mid, "http://", "") == h + SlashText(trailingSlash)
    requires IsHostName(h)
    ensures CleanHost(u) == h
  {
    assert Trim(u) == u;
    CleanHostOfHost(h, trailingSlash);
  }

  lemma UrlIsTrimmed(sc: Scheme, h: string, trailingSlash: bool)
    requires IsHostName(h)
    ensures IsTrimmed(SchemeText(sc) + h + SlashText(trailingSlash))
  {
    var u := SchemeText(sc) + h + SlashText(trailingSlash);
    if sc != NoScheme { assert u[0] == 'h'; } else { assert u[0] == h[0]; }
    if trailingSlash { assert u[|u| - 1] == '/'; } else { assert u[|u| - 1] == h[|h| - 1]; }
  }

  lemma CleanHostHttps(h: string, trailingSlash: bool)
    requires IsHostName(h)
    ensures CleanHost("https://" + (h + SlashText(trailingSlash))) == h
  {
    var a := h + SlashText(trailingSlash);
    UrlIsTrimmed(Https, h, trailingSlash);
    assert "https://" + a == SchemeText(Https) + h + SlashText(trailingSlash);
    CleanHostOfHost(h, trailingSlash);
    DropLeading("https://", a);
    CleanHostSteps("https://" + a, a, h, trailingSlash);
  }

  lemma CleanHostHttp(h: string, trailingSlash: bool)
    requires IsHostName(h)
    ensures CleanHost("http://" + (h + SlashText(trailingSlash))) == h
  {
    var a := h + SlashText(trailingSlash);
    var u := "http://" + a;
    UrlIsTrimmed(Http, h, trailingSlash);
    assert u == SchemeText(Http) + h + SlashText(trailingSlash);
    HostNoDoubleSlash(h, trailingSlash);
    HttpIsNotHttps(a);
    DropLeading("http://", a);
    CleanHostSteps(u, u, h, trailingSlash);
  }

  lemma CleanHostBare(h: string, trailingSlash: bool)
    requires IsHostName(h)
    ensures CleanHost(h + SlashText(trailingSlash)) == h
  {
    var a := h + SlashText(trailingSlash);
    UrlIsTrimmed(NoScheme, h, trailingSlash);
    assert a == SchemeText(NoScheme) + h + SlashText(trailingSlash);
    HostNoDoubleSlash(h, trailingSlash);
    NoSchemeIn(a, "https://", 6);
    CleanHostOfHost(h, trailingSlash);
    CleanHostSteps(a, a, h, trailingSlash);
  }

  /** A base URL written as scheme, host and optional trailing slash
      cleans up to the bare host, whichever of the two schemes or none is
      used. */
  lemma CleanHostOfUrl(sc: Scheme, h: string, trailingSlash: bool)
    requires IsHostName(h)
    ensures CleanHost(SchemeText(sc) + h + SlashText(trailingSlash)) == h
  {
    assert SchemeText(sc) + h + SlashText(trailingSlash) == SchemeText(sc) + (h + SlashText(trailingSlash));
    match sc
    case Https => CleanHostHttps(h, trailingSlash);
    case Http => CleanHostHttp(h, trailingSlash);
    case NoScheme =>
      assert SchemeText(sc) + (h + SlashText(trailingSlash)) == h + SlashText(trailingSlash);
      CleanHostBare(h, trailingSlash);
  }

  /** Blanks around the base URL are trimmed away first, so a padded URL
      cleans up to the same host. */
  lemma CleanHostOfPaddedUrl(before: string, sc: Scheme, h: string, trailingSlash: bool, after: string)
    requires IsHostName(h) && AllSpace(before) && AllSpace(after)
    ensures CleanHost(before + (SchemeText(sc) + h + SlashText(trailingSlash)) + after) == h
  {
    var u := SchemeText(sc) + h + SlashText(trailingSlash);
    UrlIsTrimmed(sc, h, trailingSlash);
    TrimPadded(before, u, after);
    CleanHostAfterTrim(before + u + after, u);
    CleanHostOfUrl(sc, h, trailingSlash);
  }

  /** The clean-up only sees the trimmed URL. */
  lemma CleanHostAfterTrim(x: string, u: string)
    requires IsTrimmed(u) && Trim(x) == u
    ensures CleanHost(x) == CleanHost(u)
  {
    assert Trim(u) == u;
  }

  /** A host with a port keeps its port. */
  lemma CleanHostKeepsPort()
    ensures CleanHost(" " + ("https://" + "jira.example.com:8443" + "/") + "\n") == "jira.example.com:8443"
  {
    var h := "jira.example.com:8443";
    assert '/' !in h;
    assert IsTrimmed(h);
    CleanHostOfPaddedUrl(" ", Https, h, true, "\n");
  }

  // ---------------------------------------------------------- searching

  const JqlPrefix := "text ~ \""
  const AllIssuesJql := "order by created DESC"

  /** The JQL of `searchTickets`. */
  function Jql(query: string): string {
    if query != "" then JqlPrefix + query + "\"" else AllIssuesJql
  }

  /** The query a text-search JQL was built from. */
  function QueryOf(jql: string): string {
    if StartsWith(jql, JqlPrefix) && EndsWith(jql, "\"") && |jql| > |JqlPrefix|
    then jql[|JqlPrefix|..|jql| - 1]
    else ""
  }

  /** A non-empty query is recovered from its JQL, and an empty one gives
      the listing of all issues by creation date. */
  lemma JqlRoundTrip(query: string)
    ensures QueryOf(Jql(query)) == query
    ensures query == "" <==> Jql(query) == AllIssuesJql
  {
    var j := Jql(query);
    if query != "" {
      assert j[..|JqlPrefix|] == JqlPrefix;
      assert j[|j| - 1..] == "\"";
      assert j[|JqlPrefix|..|j| - 1] == query;
      assert j != AllIssuesJql by { assert j[0] != AllIssuesJql[0]; }
    } else {
      assert !StartsWith(AllIssuesJql, JqlPrefix) by { assert AllIssuesJql[0] != JqlPrefix[0]; }
    }
  }

  // ------------------------------------------------------------ service

  /** What the Jira library answered to `findIssue`. */
  datatype IssueResponse = Found(issue: Issue) | LookupFailed(message: string)

  /** All three connection rows exist. */
  predicate HasCredentials(settings: map<string, string>) {
    JiraBaseUrlKey in settings && JiraUsernameKey in settings && JiraApiTokenKey in settings
  }

  /** The options a client is built with (always over https, API
      version 3, with certificate checks). */
  datatype ClientConfig = ClientConfig(host: string, username: string, password: string)

  /** The client options read from the settings rows. */
  function ConfigOf(settings: map<string, string>): (c: ClientConfig)
    requires HasCredentials(settings)
  {
    ClientConfig(
      CleanHost(settings[JiraBaseUrlKey]),
      Trim(settings[JiraUsernameKey]),
      Trim(settings[JiraApiTokenKey]))
  }

  class JiraClientService {
    /** The library client, `None` while it is `null`. */
    var client: Option<ClientConfig>

    /** The service starts without a client and reads the settings once. */
    constructor (settings: map<string, string>)
      ensures client == if HasCredentials(settings) then Some(ConfigOf(settings)) else None
    {
      client := None;
      new;
      InitializeClient(settings);
    }

    /** `initializeClient`: a client is built only when all three settings
        rows exist (an empty value still counts as a row); otherwise the
        previous client, if any, stays. */
    method InitializeClient(settings: map<string, string>)
      modifies this
      ensures client == if HasCredentials(settings) then Some(ConfigOf(settings)) else old(client)
    {
      if HasCredentials(settings) {
        client := Some(ConfigOf(settings));
      }
    }

    /** `fetchTicket`: the key is upper-cased for the lookup, and errors
        are rewritten with the key as given. `requested` is the key looked
        up, `None` when there is no client to ask. */
    method FetchTicket(ticketKey: string, response: IssueResponse)
      returns (r: Result<Ticket, string>, requested: Option<string>)
      ensures r == FetchOutcome(client.Some?, ticketKey, response)
      ensures requested == if client.Some? then Some(Upper(ticketKey)) else None
    {
      if client.None? {
        return Failure(RewriteError(NotConfiguredMessage, ticketKey)), None;
      }
      requested := Some(Upper(ticketKey));
      match response {
        case Found(issue) =>
          r := Success(TicketOf(issue));
        case LookupFailed(message) =>
          r := Failure(RewriteError(message, ticketKey));
      }
    }
  }

  /** The result of `fetchTicket` given whether a client exists and what
      the library answered. */
  function FetchOutcome(configured: bool, ticketKey: string, response: IssueResponse): Result<Ticket, string> {
    if !configured then Failure(RewriteError(NotConfiguredMessage, ticketKey))
    else match response
      case Found(issue) => Success(TicketOf(issue))
      case LookupFailed(message) => Failure(RewriteError(message, ticketKey))
  }

  /** Without a client every fetch fails with the not-configured message;
      with one, a found issue always gives its ticket record. */
  lemma FetchOutcomeCases(configured: bool, ticketKey: string, response: IssueResponse)
    ensures !configured ==> FetchOutcome(configured, ticketKey, response) == Failure(NotConfiguredMessage)
    ensures configured && response.Found? ==>
      FetchOutcome(configured, ticketKey, response) == Success(TicketOf(response.issue))
    ensures configured && response.LookupFailed? ==>
      FetchOutcome(configured, ticketKey, response).Failure?
  {
    NotConfiguredPassesThrough(ticketKey);
  }
}
