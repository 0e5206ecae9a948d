# auto_out: the per-user clock-out state machine

auto_out is an unattended agent. For each employee credential, it logs in to
an HRIS attendance API and draws a random clock-out time inside a daily window
(`TIME_WINDOW_START`–`TIME_WINDOW_END`). Once that time has passed, it submits
the clock-out. `main` polls every user once a minute, forever.

This project models the core of that agent: class `User` in `main.py`, and
one pass of `main`'s loop over the users. The environment is turned into parameters:

- the wall clock is an integer count of microseconds (the resolution of
  `datetime`); a calendar day is a block of `Clock.DayLength` instants;
- the window bounds are times of day, in either order (`Clock.Window`);
- each `random.uniform` draw is a caller-supplied time of day that lies
  between the bounds (`Window.Admits`);
- each HTTP exchange is a `Replies.LoginReply` or `Replies.SubmitReply`: the
  status code and the token entry, or a transport failure.

Files:

- `wrappers.dfy`: `Option`.
- `clock.dfy`: days, times of day, and putting a time of day on a date (`At`).
- `replies.dfy`: API answers, the exceptions that can escape a tick, and `Outcome`.
- `user_spec.dfy`: the state machine as pure functions on `UserState`. These
  functions are the specification. The properties are their contracts and the
  lemmas beside them.
- `user_agent.dfy`: class `User`, with mutable fields `token`, `scheduleOut`
  and `lastOut`. Each method is proved equal to the matching `UserSpec`
  function. `PollOnce` is the loop over the users.

The model follows the code as written, including these behaviours:

- `_auth_token` is only annotated on the class and is never set in `__init__`.
  Until a login succeeds, the attribute does not exist. `clock_out` then
  raises `AttributeError`. The model uses `TokenSlot.Unset` and
  `Raised(TokenUnset)`.
- A 200 login answer whose token entry is JSON `null` stores `None`
  (`NoToken`). Until a later login stores a token string, every `clock_out`
  returns quietly.
- A 200 login answer without `data.token` raises before anything is stored
  (`Raised(MalformedLoginReply)`).
- An exception leaves in place the fields already updated. In `start`, the
  token check comes after `assign_schedule`. So a tick that raises there still
  leaves the new schedule.
- `start` redraws the schedule on every tick. The due check always compares a
  fresh draw for today with `now`.
- `main` catches nothing. The first exception ends the pass over the users,
  and with it the process.

## Behaviour of the code worth knowing

- A user that has never logged in and whose login is refused raises
  `AttributeError` at the token check. Nothing catches it, so it ends the
  process (`UserSpec.Start`, `UserSpec.PollAll`).
- The schedule is redrawn on every tick, always for today's window. After an
  accepted submit once the window has closed, the new schedule is already past
  (`RescheduleAfterWindowIsDue`). Every later tick that day submits again, as long as a
  token is held and the API answers (`RepeatedAfterWindow`).
- After a failed submit, the only new login is the unconditional login at the
  start of the next tick.
- Transport exceptions from `requests.post` are not caught anywhere. They
  propagate out of `main`.

## Model

| member | source | states |
|---|---|---|
| `UserAgent.User.constructor` | main.py:26-29 | a new user has its credentials, no schedule, no last clock-out, and no token attribute at all (`Unset`) |
| `UserSpec.ShouldOutMeaning` | main.py:36-40 | the meaning of `UserState.ShouldOut`, the model of `should_out`: `should_out` is false when no schedule is assigned and false when the schedule equals `now`; on the schedule's own day it is true exactly when the scheduled time of day is strictly earlier than the current one |
| `Clock.At` | main.py:51-57 | putting a time of day on a date gives an instant whose date and time of day are exactly those two |
| `Clock.SameDayOrder` | main.py:40 | on one day, an instant is earlier than `now` exactly when its time of day is earlier than `now`'s |
| `UserSpec.AssignSchedule` | main.py:47-60 | a schedule is always set; its date is the date of `now`; its time of day is the draw, so it lies within the window whichever order the bounds are in; no other field changes |
| `UserAgent.User.AssignSchedule` | main.py:47-60 | the object's fields after the call are those `UserSpec.AssignSchedule` gives for the fields before it |
| `UserSpec.Login` | main.py:63-78 | only the token can change; a non-200 answer changes nothing (the token keeps its value or stays unset); a 200 answer stores `data.token` (`None` for a null entry); a transport failure or a body without the token entry raises and changes nothing; a token string afterwards was either held before or granted by this answer |
| `UserAgent.User.Login` | main.py:63-78 | the new fields and the outcome are those of `UserSpec.Login` on the old fields |
| `UserSpec.ClockOut` | main.py:81-98 | raises `TokenUnset` when the token attribute is missing; submits exactly when a token string is held and the schedule has passed; without a submit nothing changes; a non-200 or failed submit leaves every field as it was (a transport failure raises); an accepted submit sets the last clock-out to `now` and draws a new schedule on today's date, with token and credentials unchanged |
| `UserAgent.User.ClockOut` | main.py:81-98 | the new fields, whether a submit was sent, and the outcome are those of `UserSpec.ClockOut` on the old fields |
| `UserSpec.Start` | main.py:43-44 | a login that raises ends the tick with its result; otherwise a schedule for today inside the window is held afterwards; a submit happens exactly when a token string is held after the login and the fresh draw is strictly earlier than the current time of day; a user that never logged in and whose login is refused raises `TokenUnset` without a submit; the credentials never change |
| `UserAgent.User.Start` | main.py:43-44 | the new fields, the submit flag and the outcome are those of `UserSpec.Start` on the old fields |
| `UserSpec.NoSubmitBeforeWindow` | main.py:44-58 | whatever the login answer and the token, a tick before today's window opens never submits, since the fresh draw cannot be earlier than `now` |
| `UserSpec.TickAgainstWindow` | main.py:40-96 | with a token held and a login that keeps one, a tick before today's window opens never submits, raises nothing, still holds a token string (a 200 login may replace it) and keeps the last clock-out; a tick after the window has closed always submits |
| `UserSpec.RescheduleAfterWindowIsDue` | main.py:88-96 | an accepted submit after the window has closed records `now` as the last clock-out, and leaves a new schedule that is already due |
| `UserSpec.Run` | main.py:110-115 | successive ticks of one user, stopping at the first exception, never change the credentials, submit at most once per tick, and change the last clock-out only if some tick submitted |
| `UserSpec.QuietBeforeWindow` | main.py:110-115 | any number of ticks before the window opens, with a token held and logins that keep one, submit nothing, raise nothing, still hold a token string (a 200 login may replace it) and keep the last clock-out |
| `UserSpec.RepeatedAfterWindow` | main.py:110-115 | every tick after the window has closed submits, as long as a token is held and the API answers |
| `UserSpec.PollAll` | main.py:112-114 | one pass applies `start` to each user in order: users before the first exception have ticked cleanly; the user that raised has ticked and reports that exception; users after it are untouched; without an exception every user has ticked |
| `UserSpec.PollAllCompletes` | main.py:112-114 | a pass in which every user ticks without an exception ends with no failure, and each user holds its own tick's result |
| `UserSpec.PollAllStopsAt` | main.py:112-114 | a pass stops at the first user whose tick raises: that exception is reported with that user's position, and the users after it keep their state |
| `UserAgent.PollOnce` | main.py:112-114 | the users' fields after the loop, and the exception that stopped it, are those `UserSpec.PollAll` gives for the fields before it |

## Left out

- `UserSpec.Start`: the model reads the clock once per tick. The source reads `datetime.now()` separately in `assign_schedule`, in `should_out` and for `_last_out`, so the readings can differ by the time the HTTP calls take. This matters only for ticks that straddle a scheduled instant or midnight.
- `UserAgent.PollOnce`: requires the users to be distinct objects. `load_credentials` builds a fresh object per credential.
- The infinite `while True` loop and `time.sleep(60)` in `main`: the model gives one pass over the users (`PollOnce`, `PollAll`) and the successive ticks of one user (`Run`). Interleaving several users over many passes is not modelled.
- `write_log` and the log file: output only, it affects no field. An exception from `write_log` (for instance when `./.log` cannot be opened) is not modelled; it would end the process after the fields it follows were updated.
- `load_credentials` and `credentials.json`: file and JSON input.
- Reading `API_URL`, `TIME_WINDOW_START` and `TIME_WINDOW_END` from the environment: the window is a parameter. Parsing "%H:%M" is reduced to the `Window.Valid` requirement that both bounds are times of day. A bound not in that form is not modelled: `strptime` would then raise `ValueError` in every `assign_schedule`, so the first tick whose login does not raise would end the process.
- `requests.post`, the request URLs and headers, and `json.loads`: replaced by the reply values. Every way the login body can lack a token entry is one `Malformed` case. A token entry that is not a string or `null` is not modelled. The requests carry no timeout; a request that never returns is not modelled.
- `random.uniform` and floating point: a draw is an exact microsecond between the bounds. Rounding at the window's endpoints is not modelled.
- Time zones, daylight-saving gaps, and platforms where `fromtimestamp` rejects the 1900 timestamps that `strptime` produces: local time is a uniform count of microseconds.
- `__str__`: formatting only.
- `_last_out` before the first accepted submit: the attribute does not exist yet. Nothing reads it before it is assigned, so it is modelled as `None`.
