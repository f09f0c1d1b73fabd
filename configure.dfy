/**
 * The configuration page (pages/configure.tsx): a single state cell with
 * three variants, replaced wholesale by each event handler. `Next` is the
 * transition function; `ConfigurePage` is the component holding the cell,
 * with one method per handler. The awaited API calls enter as the replies
 * the network delivered.
 */
module Configure {
  import opened Wrappers
  import opened Vercel

  /** What a successful login holds: the scope, the token and the fetched lists. */
  datatype Session = Session(teamId: string, accessToken: string, drains: seq<LogDrain>, projects: seq<Project>)

  datatype State =
    | Login(submitting: bool, error: Option<string>)
    | LoggedIn(session: Session)
    | CreateNewDrain(session: Session, submitting: bool, error: Option<string>)

  const LoginFailed := "Login failed."

  /** The page's first state: the login form, idle, without an error. */
  const Initial: State := Login(false, None)

  /**
   * The events a handler reacts to. The three `...Finished` events carry
   * what the awaited calls produced; the others are clicks and submits.
   */
  datatype Event =
    | LoginSubmitted
    | LoginFinished(teamId: string, accessToken: string,
                    drains: Result<seq<LogDrain>, ApiError>, projects: Result<seq<Project>, ApiError>)
    | CreateClicked
    | CreateCancelled
    | CreateSubmitted
    | CreationFinished(created: Result<LogDrain, ApiError>)
    | DeletionFinished(drainId: string, deleted: Result<(), ApiError>)

  /** `drains.filter(drain => drain.id !== drainId)`. */
  function WithoutDrain(drains: seq<LogDrain>, drainId: string): (r: seq<LogDrain>)
    ensures forall d :: d in r <==> d in drains && d.id != drainId
    ensures |r| <= |drains|
  {
    if drains == [] then []
    else (if drains[0].id != drainId then [drains[0]] else []) + WithoutDrain(drains[1..], drainId)
  }

  /**
   * The state after event `e` in state `s`; None when the event cannot
   * happen there: its control is not rendered, or, for a finished creation
   * or deletion, the handler's `assert` on the state tag throws.
   */
  function Next(s: State, e: Event): (r: Option<State>)
    ensures r.None? <==>
      || (e.LoginSubmitted? && !s.Login?)
      || ((e.CreateClicked? || e.DeletionFinished?) && !s.LoggedIn?)
      || ((e.CreateCancelled? || e.CreateSubmitted? || e.CreationFinished?) && !s.CreateNewDrain?)
    ensures r.Some? && !s.Login? && !e.LoginFinished? ==> !r.value.Login? && r.value.session.teamId == s.session.teamId
  {
    match e
    case LoginSubmitted =>
      if s.Login? then Some(Login(true, s.error)) else None
    case LoginFinished(teamId, accessToken, drains, projects) =>
      if drains.Success? && projects.Success? then
        Some(LoggedIn(Session(teamId, accessToken, drains.value, projects.value)))
      else
        Some(Login(false, Some(LoginFailed)))
    case CreateClicked =>
      if s.LoggedIn? then Some(CreateNewDrain(s.session, false, None)) else None
    case CreateCancelled =>
      if s.CreateNewDrain? then Some(LoggedIn(s.session)) else None
    case CreateSubmitted =>
      if s.CreateNewDrain? then Some(CreateNewDrain(s.session, true, None)) else None
    case CreationFinished(created) =>
      if !s.CreateNewDrain? then None
      else if created.Success? then
        Some(LoggedIn(s.session.(drains := s.session.drains + [created.value])))
      else
        Some(CreateNewDrain(s.session, false, Some(ErrorText(created.error))))
    case DeletionFinished(drainId, deleted) =>
      if !s.LoggedIn? then None
      else if deleted.Success? then
        Some(LoggedIn(s.session.(drains := WithoutDrain(s.session.drains, drainId))))
      else
        Some(s)
  }

  /** The state after a whole sequence of events, or None if one of them cannot happen. */
  function Run(s: State, es: seq<Event>): Option<State>
    decreases es
  {
    if es == [] then Some(s)
    else match Next(s, es[0])
      case None => None
      case Some(t) => Run(t, es[1..])
  }

  /**
   * What every reachable state satisfies: a login error is always the fixed
   * message; a drain form being submitted shows no error; and a shown
   * creation error is never empty.
   */
  predicate Inv(s: State) {
    && (s.Login? && s.error.Some? ==> s.error.value == LoginFailed)
    && (s.CreateNewDrain? && s.submitting ==> s.error.None?)
    && (s.CreateNewDrain? && s.error.Some? ==> s.error.value != "")
  }

  /** The drains the page currently shows (none before login). */
  function Drains(s: State): seq<LogDrain> {
    if s.Login? then [] else s.session.drains
  }

  /** Event `e` brings drain `d` into the page: a successful creation or login that returns it. */
  predicate Supplies(e: Event, d: LogDrain) {
    || (e.CreationFinished? && e.created == Success(d))
    || (e.LoginFinished? && e.drains.Success? && d in e.drains.value)
  }

  /** Both states hold a session for the same scope, token and projects. */
  predicate SameAccount(s: State, t: State) {
    && !s.Login? && !t.Login?
    && t.session.teamId == s.session.teamId
    && t.session.accessToken == s.session.accessToken
    && t.session.projects == s.session.projects
  }

  // ---------------------------------------------------------------------
  // The filter used by deletion
  // ---------------------------------------------------------------------

  lemma {:induction false} WithoutDrainConcat(a: seq<LogDrain>, b: seq<LogDrain>, drainId: string)
    ensures WithoutDrain(a + b, drainId) == WithoutDrain(a, drainId) + WithoutDrain(b, drainId)
  {
    if a == [] {
      assert a + b == b;
    } else {
      assert (a + b)[0] == a[0];
      assert (a + b)[1..] == a[1..] + b;
      WithoutDrainConcat(a[1..], b, drainId);
    }
  }

  /** Deleting an id no drain has leaves the list as it was. */
  lemma {:induction false} WithoutAbsentDrain(drains: seq<LogDrain>, drainId: string)
    requires forall d :: d in drains ==> d.id != drainId
    ensures WithoutDrain(drains, drainId) == drains
  {
    if drains != [] {
      WithoutAbsentDrain(drains[1..], drainId);
    }
  }

  /**
   * The kept drains stay in their original order: removing the only drain
   * with the id from `before + [x] + after` gives `before + after`.
   */
  lemma WithoutDrainRemovesEntry(before: seq<LogDrain>, x: LogDrain, after: seq<LogDrain>)
    requires forall d :: d in before ==> d.id != x.id
    requires forall d :: d in after ==> d.id != x.id
    ensures WithoutDrain(before + [x] + after, x.id) == before + after
  {
    WithoutAbsentDrain(before, x.id);
    WithoutAbsentDrain(after, x.id);
    var single := WithoutDrain([x], x.id);
    assert single == [] by {
      assert [x][1..] == [];
    }
    WithoutDrainConcat(before, [x], x.id);
    var front := WithoutDrain(before + [x], x.id);
    assert front == before;
    WithoutDrainConcat(before + [x], after, x.id);
  }

  /** Deleting twice is deleting once. */
  lemma WithoutDrainIdempotent(drains: seq<LogDrain>, drainId: string)
    ensures WithoutDrain(WithoutDrain(drains, drainId), drainId) == WithoutDrain(drains, drainId)
  {
    WithoutAbsentDrain(WithoutDrain(drains, drainId), drainId);
  }

  // ---------------------------------------------------------------------
  // Properties of the transitions
  // ---------------------------------------------------------------------

  lemma NextPreservesInv(s: State, e: Event)
    requires Inv(s) && Next(s, e).Some?
    ensures Inv(Next(s, e).value)
  {
  }

  lemma {:induction false} RunPreservesInv(s: State, es: seq<Event>)
    requires Inv(s) && Run(s, es).Some?
    ensures Inv(Run(s, es).value)
    decreases es
  {
    if es != [] {
      NextPreservesInv(s, es[0]);
      RunPreservesInv(Next(s, es[0]).value, es[1..]);
    }
  }

  /**
   * Apart from a login, no event changes the scope, the token or the
   * projects; the drains change only by one appended drain or by the
   * deletion filter.
   */
  lemma NextKeepsAccount(s: State, e: Event)
    requires !s.Login? && !e.LoginFinished? && Next(s, e).Some?
    ensures SameAccount(s, Next(s, e).value)
    ensures var t := Next(s, e).value;
      || t.session.drains == s.session.drains
      || (e.CreationFinished? && t.session.drains == s.session.drains + [e.created.value])
      || (e.DeletionFinished? && t.session.drains == WithoutDrain(s.session.drains, e.drainId))
  {
  }

  /** Along any run without a login, the page stays logged in to one account. */
  lemma {:induction false} RunKeepsAccount(s: State, es: seq<Event>)
    requires !s.Login? && Run(s, es).Some?
    requires forall i :: 0 <= i < |es| ==> !es[i].LoginFinished?
    ensures SameAccount(s, Run(s, es).value)
    decreases es
  {
    if es != [] {
      NextKeepsAccount(s, es[0]);
      var t := Next(s, es[0]).value;
      RunKeepsAccount(t, es[1..]);
    }
  }

  /** Every drain on the page was there at the start or came from the server through a login or a creation. */
  lemma {:induction false} RunDrainsProvenance(s: State, es: seq<Event>, d: LogDrain)
    requires Run(s, es).Some? && d in Drains(Run(s, es).value)
    ensures d in Drains(s) || exists i :: 0 <= i < |es| && Supplies(es[i], d)
    decreases es
  {
    if es != [] {
      var t := Next(s, es[0]).value;
      RunDrainsProvenance(t, es[1..], d);
      if d in Drains(t) && !Supplies(es[0], d) {
        assert d in Drains(s);
      }
      if exists i :: 0 <= i < |es[1..]| && Supplies(es[1..][i], d) {
        var i :| 0 <= i < |es[1..]| && Supplies(es[1..][i], d);
        assert Supplies(es[i + 1], d);
      }
    }
  }

  /** After a successful deletion no drain with that id is left. */
  lemma DeletionRemovesId(s: State, drainId: string)
    requires s.LoggedIn?
    ensures var t := Next(s, DeletionFinished(drainId, Success(()))).value;
      t.LoggedIn? && forall d :: d in t.session.drains ==> d.id != drainId
  {
  }

  // ---------------------------------------------------------------------
  // The page component
  // ---------------------------------------------------------------------

  /** The `Page` component: its one `state` cell and the handlers that replace it. */
  class ConfigurePage {
    var state: State

    ghost predicate Valid()
      reads this
    {
      Inv(state)
    }

    constructor ()
      ensures Valid() && state == Initial
      ensures state.Login? && !state.submitting && state.error.None?
    {
      state := Initial;
    }

    /** The login form's submit: the login state spread with `submitting` set, so an old error stays. */
    method SubmitLogin()
      requires Valid() && state.Login?
      modifies this
      ensures Valid()
      ensures state == Login(true, old(state.error))
    {
      state := Next(state, LoginSubmitted).value;
    }

    /**
     * `handleLogin`: fetch the drains, then (only if that succeeded) the
     * projects, in the scope of `teamId`. `requests` lists the calls made.
     */
    method HandleLogin(teamId: string, accessToken: string, drainsReply: Reply, projectsReply: Reply, nulls: Nullability)
      returns (requests: seq<Request>)
      requires Valid()
      modifies this
      ensures Valid()
      ensures var drains := GetLogDrains(drainsReply, nulls);
              var projects := GetProjects(projectsReply);
        if drains.Success? && projects.Success? then
          state == LoggedIn(Session(teamId, accessToken, drains.value, projects.value))
        else
          state == Login(false, Some(LoginFailed))
      ensures requests ==
        [LogDrainsRequest(Some(teamId))] +
        (if GetLogDrains(drainsReply, nulls).Success? then [ProjectsRequest(Some(teamId))] else [])
    {
      var drains := GetLogDrains(drainsReply, nulls);
      requests := [LogDrainsRequest(Some(teamId))];
      var projects: Result<seq<Project>, ApiError> := Failure(Network(""));
      if drains.Success? {
        requests := requests + [ProjectsRequest(Some(teamId))];
        projects := GetProjects(projectsReply);
      }
      state := Next(state, LoginFinished(teamId, accessToken, drains, projects)).value;
    }

    /** "Create new drain": the drain form over the same session, idle and without an error. */
    method ClickCreate()
      requires Valid() && state.LoggedIn?
      modifies this
      ensures Valid()
      ensures state == CreateNewDrain(old(state.session), false, None)
    {
      state := Next(state, CreateClicked).value;
    }

    /** "Cancel": back to the list with the session untouched. */
    method Cancel()
      requires Valid() && state.CreateNewDrain?
      modifies this
      ensures Valid()
      ensures state == LoggedIn(old(state.session))
    {
      state := Next(state, CreateCancelled).value;
    }

    /** The drain form's submit: `submitting` set and the previous error cleared. */
    method SubmitCreate()
      requires Valid() && state.CreateNewDrain?
      modifies this
      ensures Valid()
      ensures state == CreateNewDrain(old(state.session), true, None)
    {
      state := Next(state, CreateSubmitted).value;
    }

    /**
     * `handleDrainCreation`: create the drain in the session's scope; on
     * success append it to the list and return to it, otherwise stay on
     * the form with the error's text.
     */
    method HandleDrainCreation(reply: Reply, nulls: Nullability) returns (request: Request)
      requires Valid() && state.CreateNewDrain?
      modifies this
      ensures Valid()
      ensures request == CreateLogDrainRequest(Some(old(state.session.teamId)))
      ensures var created := CreateLogDrain(reply, nulls);
        if created.Success? then
          state == LoggedIn(old(state.session).(drains := old(state.session.drains) + [created.value]))
        else
          state == CreateNewDrain(old(state.session), false, Some(ErrorText(created.error)))
      ensures state.CreateNewDrain? ==> state.error.Some? && state.error.value != ""
    {
      request := CreateLogDrainRequest(Some(state.session.teamId));
      state := Next(state, CreationFinished(CreateLogDrain(reply, nulls))).value;
    }

    /**
     * `handleDrainDeletion`: delete the drain in the session's scope; only
     * a 204 reply filters it out of the list, any failure changes nothing.
     */
    method HandleDrainDeletion(drainId: string, reply: Reply) returns (request: Request)
      requires Valid() && state.LoggedIn?
      modifies this
      ensures Valid()
      ensures request == DeleteLogDrainRequest(drainId, Some(old(state.session.teamId)))
      ensures reply.Received? && reply.status == 204 ==>
        state == LoggedIn(old(state.session).(drains := WithoutDrain(old(state.session.drains), drainId)))
      ensures !(reply.Received? && reply.status == 204) ==> state == old(state)
    {
      request := DeleteLogDrainRequest(drainId, Some(state.session.teamId));
      state := Next(state, DeletionFinished(drainId, DeleteLogDrain(reply))).value;
    }
  }
}
