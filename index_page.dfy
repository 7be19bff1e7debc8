/**
 * The home page (src/pages/Index.tsx): a greeting chosen by the hour of day and the
 * signed-in user's first name, falling back to "User".
 */
module IndexPage {
  import opened Common

  const Morning := "Good morning"
  const Afternoon := "Good afternoon"
  const Evening := "Good evening"

  /** `getGreeting` for the local hour `new Date().getHours()`. */
  function Greeting(hour: nat): (g: string)
    requires hour < 24
    ensures g == Morning <==> hour < 12
    ensures g == Afternoon <==> 12 <= hour < 18
    ensures g == Evening <==> 18 <= hour
  {
    if hour < 12 then Morning
    else if hour < 18 then Afternoon
    else Evening
  }

  /** The position of a greeting in the day: morning, afternoon, evening. */
  function Rank(g: string): nat {
    if g == Morning then 0 else if g == Afternoon then 1 else 2
  }

  /** Later hours never give an earlier greeting. */
  lemma GreetingMonotonic(h1: nat, h2: nat)
    requires h1 <= h2 < 24
    ensures Rank(Greeting(h1)) <= Rank(Greeting(h2))
  {
  }

  /** `{firstName || 'User'}`: the name shown after the greeting. */
  function DisplayName(firstName: string): (d: string)
    ensures d != ""
    ensures firstName != "" ==> d == firstName
    ensures firstName == "" ==> d == "User"
  {
    if firstName != "" then firstName else "User"
  }

  /** "User" is shown exactly for an empty name or a user really called "User". */
  lemma DisplayNameUserIff(firstName: string)
    ensures DisplayName(firstName) == "User" <==> firstName == "" || firstName == "User"
  {
  }

  /**
   * A profile column as shown: a truthy `first_name` appears verbatim, a missing or
   * empty one as "User".
   */
  lemma ShownProfileName(first: Option<string>)
    ensures DisplayName(OrEmpty(first)) == if Truthy(first) then first.value else "User"
  {
  }

  /** What the `profiles` query for `first_name` returns. */
  datatype FirstNameQuery = QueryError | Found(first_name: Option<string>)

  /** The first-name state of the page. */
  class Home {
    var firstName: string

    /** The name the page shows. */
    function Shown(): string
      reads this
    {
      DisplayName(firstName)
    }

    constructor ()
      ensures firstName == ""
    {
      firstName := "";
    }

    /**
     * `fetchUserProfile`: nothing without a user or on a query error; otherwise the
     * name is replaced only by a truthy `first_name`.
     */
    method FetchUserProfile(signedIn: bool, result: FirstNameQuery)
      modifies this
      ensures signedIn && result.Found? && Truthy(result.first_name) ==> firstName == result.first_name.value
      ensures !(signedIn && result.Found? && Truthy(result.first_name)) ==> firstName == old(firstName)
      ensures Shown() == if signedIn && result.Found? && Truthy(result.first_name) then result.first_name.value else old(Shown())
    {
      if signedIn {
        match result
        case QueryError =>
        case Found(first) =>
          if first.Some? && first.value != "" {
            firstName := first.value;
          }
      }
    }
  }
}
