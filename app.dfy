/** The application shell (`App.tsx`): the signed-in user, the complaint
    list with its local copy, the language, the start-up sync with the
    endpoint and the route table. */
module App {
  import opened Wrappers
  import opened Domain

  datatype Lang = En | Hi

  /** The header button: `lang === 'en' ? 'hi' : 'en'`. */
  function Toggle(lang: Lang): Lang {
    if lang == En then Hi else En
  }

  /** What a route renders. */
  datatype Page =
    | LoginPage
    | DashboardPage
    | AdminPage
    | SubmitPage
    | TrackPage
    | MenuPage
    | Redirect(to: string)
    | NoMatch

  predicate IsCitizen(user: Option<User>) {
    user.Some? && user.value.role == Citizen
  }

  /** The `<Routes>` table for a path and the signed-in user. */
  function Route(path: string, user: Option<User>): Page {
    if path == "/login" then
      if user.None? then LoginPage else Redirect("/")
    else if path == "/" then
      if user.None? then Redirect("/login")
      else if user.value.role == Citizen then DashboardPage
      else AdminPage
    else if path == "/submit" then
      if IsCitizen(user) then SubmitPage else Redirect("/login")
    else if path == "/track" then
      if IsCitizen(user) then TrackPage else Redirect("/login")
    else if path == "/menu" then
      if IsCitizen(user) then MenuPage else Redirect("/login")
    else NoMatch
  }

  /** How the `/api/complaints` request of `syncComplaints` ended. */
  datatype FetchOutcome = Answered(ok: bool, data: seq<Complaint>) | Threw

  /** The list after the sync: the server's data on an OK answer, otherwise
      the stored copy if there is one, otherwise the list as it was. */
  function Synced(current: seq<Complaint>, outcome: FetchOutcome, stored: Option<seq<Complaint>>)
    : seq<Complaint>
  {
    if outcome.Answered? && outcome.ok then outcome.data
    else if stored.Some? then stored.value
    else current
  }

  /** The shell's state; `storedUser` and `storedComplaints` are the
      `localStorage` entries. */
  class Shell {
    var user: Option<User>
    var complaints: seq<Complaint>
    var lang: Lang
    var isLoadingBackend: bool
    var storedUser: Option<User>
    var storedComplaints: Option<seq<Complaint>>

    constructor (savedUser: Option<User>, savedComplaints: Option<seq<Complaint>>)
      ensures user == savedUser && complaints == [] && lang == En && isLoadingBackend
      ensures storedUser == savedUser && storedComplaints == savedComplaints
    {
      user := savedUser;
      complaints := [];
      lang := En;
      isLoadingBackend := true;
      storedUser := savedUser;
      storedComplaints := savedComplaints;
    }

    /** `syncComplaints`, its `finally` included. */
    method SyncComplaints(outcome: FetchOutcome)
      modifies this`complaints, this`isLoadingBackend
      ensures complaints == Synced(old(complaints), outcome, storedComplaints)
      ensures !isLoadingBackend
    {
      match outcome {
        case Answered(ok, data) =>
          if ok {
            complaints := data;
          } else if storedComplaints.Some? {
            complaints := storedComplaints.value;
          }
        case Threw =>
          if storedComplaints.Some? {
            complaints := storedComplaints.value;
          }
      }
      isLoadingBackend := false;
    }

    method HandleLogin(newUser: User)
      modifies this`user, this`storedUser
      ensures user == Some(newUser) && storedUser == Some(newUser)
    {
      user := Some(newUser);
      storedUser := Some(newUser);
    }

    method HandleLogout()
      modifies this`user, this`storedUser
      ensures user == None && storedUser == None
    {
      user := None;
      storedUser := None;
    }

    /** `handleUpdateComplaints`, the desk's `onUpdate`. */
    method HandleUpdateComplaints(updated: seq<Complaint>)
      modifies this`complaints, this`storedComplaints
      ensures complaints == updated && storedComplaints == Some(updated)
    {
      complaints := updated;
      storedComplaints := Some(updated);
    }

    /** `handleUpdateFeedback`; `now` is the ISO time. */
    method HandleUpdateFeedback(id: string, rating: int, comment: string, now: string)
      modifies this`complaints, this`storedComplaints
      ensures complaints == WithFeedback(old(complaints), id, Feedback(rating, comment, now))
      ensures storedComplaints == Some(complaints)
    {
      var updated := WithFeedback(complaints, id, Feedback(rating, comment, now));
      complaints := updated;
      storedComplaints := Some(updated);
    }

    method AddComplaint(newComplaint: Complaint)
      modifies this`complaints, this`storedComplaints
      ensures complaints == [newComplaint] + old(complaints)
      ensures storedComplaints == Some(complaints)
    {
      var updated := [newComplaint] + complaints;
      complaints := updated;
      storedComplaints := Some(updated);
    }

    method ToggleLang()
      modifies this`lang
      ensures lang == Toggle(old(lang))
    {
      lang := if lang == En then Hi else En;
    }
  }
}

/** What the shell promises. */
module AppProperties {
  import opened Wrappers
  import opened Lists
  import opened Domain
  import opened App
  import opened Dashboard

  /** Toggling swaps the two languages, so toggling twice changes nothing. */
  lemma ToggleInvolution(lang: Lang)
    ensures Toggle(lang) != lang
    ensures Toggle(Toggle(lang)) == lang
  {
  }

  /** Login is shown only to nobody; the home page is the dashboard for
      citizens and the ticket desk for every other role; the citizen pages
      are for citizens only. */
  lemma RouteGuard(path: string, user: Option<User>)
    ensures Route("/login", user) == LoginPage <==> user.None?
    ensures Route("/", user) == DashboardPage <==> IsCitizen(user)
    ensures Route("/", user) == AdminPage <==> user.Some? && user.value.role != Citizen
    ensures Route(path, user) in {SubmitPage, TrackPage, MenuPage} ==> IsCitizen(user)
    ensures path in {"/submit", "/track", "/menu"} && !IsCitizen(user) ==> Route(path, user) == Redirect("/login")
  {
  }

  /** Following redirects reaches a page after at most two hops. */
  lemma RedirectsSettle(path: string, user: Option<User>)
    ensures Route(path, user).Redirect? ==>
      var next := Route(Route(path, user).to, user);
      !next.Redirect? || !Route(next.to, user).Redirect?
  {
  }

  /** Loading is over whatever the sync ran into; server data wins only on
      an OK answer. */
  lemma SyncFallback(current: seq<Complaint>, outcome: FetchOutcome, stored: Option<seq<Complaint>>)
    ensures outcome.Answered? && outcome.ok ==> Synced(current, outcome, stored) == outcome.data
    ensures !(outcome.Answered? && outcome.ok) && stored.Some? ==> Synced(current, outcome, stored) == stored.value
    ensures !(outcome.Answered? && outcome.ok) && stored.None? ==> Synced(current, outcome, stored) == current
  {
  }

  /** A new complaint counts as active on the citizen dashboard. */
  lemma AddedComplaintIsActive(c: Complaint, cs: seq<Complaint>)
    requires c.status == New
    ensures ActiveCount([c] + cs) == ActiveCount(cs) + 1
  {
    assert ([c] + cs)[1..] == cs;
  }

  /** Feedback leaves the active count as it was: no status changes. */
  lemma FeedbackKeepsActiveCount(cs: seq<Complaint>, id: string, fb: Feedback)
    ensures ActiveCount(WithFeedback(cs, id, fb)) == ActiveCount(cs)
  {
    CountPointwise(WithFeedback(cs, id, fb), cs, IsActive);
  }
}
