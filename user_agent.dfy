/**
 * Class `User` of main.py as an object whose fields the methods update in
 * place, and one pass of the poll loop over a list of users. Every method is
 * proved against the function of the same name in module UserSpec.
 */
module UserAgent {

  import opened Wrappers
  import opened Clock
  import opened Replies
  import opened UserSpec

  class User {
    const employeeNumber: string
    const password: string
    var token: TokenSlot
    var scheduleOut: Option<int>
    var lastOut: Option<int>

    /** The values of the fields, as a UserSpec state. */
    function State(): UserState
      reads this
    {
      UserState(employeeNumber, password, token, scheduleOut, lastOut)
    }

    /** `__init__`: credentials stored, no schedule, and no token attribute at all. */
    constructor (employeeNumber: string, password: string)
      ensures State() == Initial(employeeNumber, password)
    {
      this.employeeNumber := employeeNumber;
      this.password := password;
      token := Unset;
      scheduleOut := None;
      lastOut := None;
    }

    /** `assign_schedule`: a new schedule for the day of `now`; the other fields stay. */
    method AssignSchedule(w: Window, now: int, draw: int)
      requires w.Valid() && w.Admits(draw)
      modifies this
      ensures State() == UserSpec.AssignSchedule(old(State()), w, now, draw)
    {
      scheduleOut := Some(At(Day(now), draw));
    }

    /** `login`: the token is replaced only by a well-formed 200 answer. */
    method Login(reply: LoginReply) returns (outcome: Outcome)
      modifies this
      ensures Step(State(), false, outcome) == UserSpec.Login(old(State()), reply)
    {
      match reply
      case LoginUnreachable =>
        return Raised(TransportError);
      case LoginReply(status, body) =>
        if status != 200 {
          return Completed;
        }
        match body
        case Malformed =>
          return Raised(MalformedLoginReply);
        case TokenField(t) =>
          token := SlotOf(t);
          return Completed;
    }

    /** `clock_out`: submit when due, and on an accepted submit record it and reschedule. */
    method ClockOut(w: Window, now: int, reply: SubmitReply, draw: int)
      returns (submitted: bool, outcome: Outcome)
      requires w.Valid() && w.Admits(draw)
      modifies this
      ensures Step(State(), submitted, outcome) == UserSpec.ClockOut(old(State()), w, now, reply, draw)
    {
      if token.Unset? {
        return false, Raised(TokenUnset);
      }
      if token.NoToken? {
        return false, Completed;
      }
      if !State().ShouldOut(now) {
        return false, Completed;
      }
      match reply
      case SubmitUnreachable =>
        return true, Raised(TransportError);
      case SubmitReply(status) =>
        if status != 200 {
          return true, Completed;
        }
        lastOut := Some(now);
        AssignSchedule(w, now, draw);
        return true, Completed;
    }

    /** `start`: login, assign_schedule, clock_out, stopping at the first exception. */
    method Start(w: Window, t: TickInput) returns (submitted: bool, outcome: Outcome)
      requires w.Valid() && t.Fits(w)
      modifies this
      ensures Step(State(), submitted, outcome) == UserSpec.Start(old(State()), w, t)
    {
      outcome := Login(t.login);
      if outcome.Raised? {
        return false, outcome;
      }
      AssignSchedule(w, t.now, t.draw);
      submitted, outcome := ClockOut(w, t.now, t.submit, t.redraw);
    }
  }

  /** The states of a list of users, in order. */
  function States(users: seq<User>): seq<UserState>
    reads set u | u in users
  {
    seq(|users|, i requires 0 <= i < |users| reads users => users[i].State())
  }

  /**
   * One pass of the poll loop in `main`: `start` on each user in list order,
   * each with its own tick. The first exception ends the pass and is
   * returned with the position of the user that raised it.
   */
  method PollOnce(users: seq<User>, w: Window, ticks: seq<TickInput>) returns (failure: Option<Failure>)
    requires w.Valid() && |ticks| == |users| && AllFit(w, ticks)
    requires forall i, j :: 0 <= i < j < |users| ==> users[i] != users[j]
    modifies set u | u in users
    ensures States(users) == PollAll(old(States(users)), w, ticks).users
    ensures failure == PollAll(old(States(users)), w, ticks).failure
  {
    ghost var before := States(users);
    ghost var current := before;
    var k := 0;
    while k < |users|
      invariant 0 <= k <= |users| && |current| == |users|
      invariant forall i :: 0 <= i < |users| ==> users[i].State() == current[i]
      invariant forall i :: 0 <= i < k ==> TickedCleanly(before[i], w, ticks[i], current[i])
      invariant forall i :: k <= i < |users| ==> current[i] == before[i]
    {
      label BeforeTick:
      var submitted, outcome := users[k].Start(w, ticks[k]);
      forall i | 0 <= i < |users| && i != k
        ensures users[i].State() == old@BeforeTick(users[i].State())
      {
        assert users[i] != users[k];
      }
      current := current[k := users[k].State()];
      if outcome.Raised? {
        failure := Some(Failure(k, outcome.error));
        PollAllStopsAt(before, w, ticks, current, k);
        assert States(users) == current;
        return;
      }
      k := k + 1;
    }
    failure := None;
    PollAllCompletes(before, w, ticks, current);
    assert States(users) == current;
  }
}
