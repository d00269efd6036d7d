/** The simulated "online users" counter: a bounded random walk. */
module OnlineUsers {

  /** The counter's bounds and the range of one tick's random change. */
  const MinUsers := 200
  const MaxUsers := 2000
  const MinChange := -15
  const MaxChange := 20

  /** The value the counter starts with. */
  const InitialUsers := MinUsers

  /** A change the user-count tick can draw. */
  predicate AdmissibleChange(change: int) {
    MinChange <= change <= MaxChange
  }

  /** `Math.max(200, Math.min(2000, v))`: the nearest value of [200, 2000]. */
  function Clamp(v: int): (r: int)
    ensures MinUsers <= r <= MaxUsers
    ensures MinUsers <= v <= MaxUsers ==> r == v
    ensures v < MinUsers ==> r == MinUsers
    ensures v > MaxUsers ==> r == MaxUsers
  {
    var capped := if v < MaxUsers then v else MaxUsers;
    if capped > MinUsers then capped else MinUsers
  }

  /** The counter after one tick that drew `change`. */
  function Step(prior: int, change: int): (r: int)
    ensures MinUsers <= r <= MaxUsers
    ensures MinUsers <= prior + change <= MaxUsers <==> r == prior + change
  {
    Clamp(prior + change)
  }

  /** The two boundary cases: a drop below the floor and a rise above the ceiling. */
  lemma StepAtBounds()
    ensures Step(MinUsers, MinChange) == MinUsers
    ensures Step(MaxUsers, MaxChange) == MaxUsers
  {
  }
}
