/** The admin dashboard: loading both message lists with the stored token,
    signing out on 401, and what it shows once loaded. */
module Dashboard {
  import opened Common
  import opened Server
  import opened App
  import Linkify

  datatype Tab = EnquiriesTab | FeedbackTab

  datatype Board = Board(enquiries: seq<Submission>, feedback: seq<Submission>, loading: bool, activeTab: Tab)

  /** The component as mounted: empty lists, loading, enquiries tab. */
  const Initial := Board([], [], true, EnquiriesTab)

  /** How `Promise.all` over the two GET requests settled. */
  datatype Fetch = Fetched(enquiries: seq<Submission>, feedback: seq<Submission>) | FetchFailed(status: Option<int>)

  /** `Promise.all`: both lists when both requests succeed, otherwise a
      failure with a rejected request's status. Which rejection wins when
      both fail depends on timing; the enquiries request is taken here. */
  function Combine(e: Result<seq<Submission>>, f: Result<seq<Submission>>): (r: Fetch)
    ensures r.Fetched? <==> e.Ok? && f.Ok?
    ensures r.Fetched? ==> r.enquiries == e.value && r.feedback == f.value
    ensures r.FetchFailed? ==>
              && r.status.Some?
              && ((e.Err? && r.status.value == e.error.status) || (f.Err? && r.status.value == f.error.status))
  {
    if e.Err? then FetchFailed(Some(e.error.status))
    else if f.Err? then FetchFailed(Some(f.error.status))
    else Fetched(e.value, f.value)
  }

  /** What `fetchData` leaves behind, and whether it sent the requests. */
  datatype Step = Step(session: Session, board: Board, navigation: Option<string>, requested: bool)

  /** `handleLogout`: sign out and go home. */
  function HandleLogout(s: Session): (r: (Session, string))
    ensures r.0.storage == EmptyStorage && r.0.user.None? && r.1 == "/"
  {
    (SignOut(s), "/")
  }

  /** `fetchData`. Without a stored token it goes to the admin login without
      any request; it returns before the `finally`, so `loading` stays as it
      was. Otherwise `loading` ends false; success replaces both lists; a
      401 signs out and goes home; any other failure keeps the lists. */
  function FetchData(s: Session, b: Board, fetch: Fetch): (r: Step)
    ensures s.storage.token.None? ==>
              r == Step(s, b, Some("/admin/login"), false)
    ensures s.storage.token.Some? ==> r.requested && !r.board.loading && r.board.activeTab == b.activeTab
    ensures s.storage.token.Some? && fetch.Fetched? ==>
              r.board.enquiries == fetch.enquiries && r.board.feedback == fetch.feedback
              && r.session == s && r.navigation.None?
    ensures s.storage.token.Some? && fetch == FetchFailed(Some(401)) ==>
              r.session == SignOut(s) && r.navigation == Some("/")
              && r.board.enquiries == b.enquiries && r.board.feedback == b.feedback
    ensures s.storage.token.Some? && fetch.FetchFailed? && fetch != FetchFailed(Some(401)) ==>
              r.session == s && r.navigation.None?
              && r.board.enquiries == b.enquiries && r.board.feedback == b.feedback
  {
    if s.storage.token.None? then Step(s, b, Some("/admin/login"), false)
    else
      match fetch
      case Fetched(e, f) => Step(s, b.(enquiries := e, feedback := f, loading := false), None, true)
      case FetchFailed(status) =>
        if status == Some(401) then
          var (s', to) := HandleLogout(s);
          Step(s', b.(loading := false), Some(to), true)
        else Step(s, b.(loading := false), None, true)
  }

  /** One message card: name, a `mailto:` link, subject and the message with
      its links made clickable. */
  datatype Card = Card(name: string, mailto: string, subject: string, message: seq<Linkify.Part>)

  function CardOf(m: Submission): (c: Card)
    ensures c.message == Linkify.MakeLinksClickable(m.message)
    ensures Linkify.Flatten(c.message) == m.message
    ensures forall i :: 0 <= i < |c.message| && i % 2 == 0 ==> c.message[i].Plain?
    ensures forall i :: 0 <= i < |c.message| && i % 2 == 1 ==> c.message[i].Anchor?
    ensures Linkify.Alternating(Linkify.JavaScript, Linkify.Texts(c.message))
    ensures c.name == m.name && c.subject == m.subject && c.mailto == "mailto:" + m.email
  {
    Card(m.name, "mailto:" + m.email, m.subject, Linkify.MakeLinksClickable(m.message))
  }

  /** What the dashboard shows: the loading screen, or the two counts (each
      shown on its stat card and on its tab) and the cards of the active
      tab. An empty list of cards is the "No ... yet" placeholder. */
  datatype View =
    | Loading
    | Loaded(enquiryCount: nat, feedbackCount: nat, activeTab: Tab, cards: seq<Card>)

  function Shown(b: Board): seq<Submission>
  {
    match b.activeTab
    case EnquiriesTab => b.enquiries
    case FeedbackTab => b.feedback
  }

  function RenderBoard(b: Board): (v: View)
    ensures v.Loading? <==> b.loading
    ensures v.Loaded? ==>
      && v.enquiryCount == |b.enquiries| && v.feedbackCount == |b.feedback|
      && v.activeTab == b.activeTab
      && |v.cards| == |Shown(b)|
      && forall i :: 0 <= i < |v.cards| ==> Linkify.Flatten(v.cards[i].message) == Shown(b)[i].message
  {
    if b.loading then Loading
    else
      var shown := Shown(b);
      Loaded(|b.enquiries|, |b.feedback|, b.activeTab,
             seq(|shown|, i requires 0 <= i < |shown| => CardOf(shown[i])))
  }

  /** A tab button. */
  function SelectTab(b: Board, t: Tab): (r: Board)
    ensures r.activeTab == t
    ensures r.enquiries == b.enquiries && r.feedback == b.feedback && r.loading == b.loading
  {
    b.(activeTab := t)
  }

  /** After a successful load the counts are the lengths of the lists the
      server returned. */
  lemma CountsAfterLoad(s: Session, b: Board, e: seq<Submission>, f: seq<Submission>)
    requires s.storage.token.Some?
    ensures var v := RenderBoard(FetchData(s, b, Fetched(e, f)).board);
      v.Loaded? && v.enquiryCount == |e| && v.feedbackCount == |f|
  {
  }
}
