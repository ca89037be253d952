/**
 * The mock user directory (services/userService.ts): a fixed list of users
 * and a case-insensitive lookup by email. Case folding is ASCII only.
 */
module UserService {
  import opened Types
  import opened Wrappers

  /**
   * The directory, in its declared order: one manager and two telecallers,
   * every one with an email the lookup can match (it refuses the empty one).
   */
  function Users(): (us: seq<User>)
    ensures |us| == 3
    ensures forall i :: 0 <= i < |us| ==> us[i].email != ""
    ensures exists i :: 0 <= i < |us| && us[i].role == Manager
    ensures exists i :: 0 <= i < |us| && us[i].role == Telecaller
  {
    var us := [
      User("manager@estoarkis.com", "Admin Manager", Manager),
      User("john.doe@estoarkis.com", "John Doe", Telecaller),
      User("jane.smith@estoarkis.com", "Jane Smith", Telecaller)
    ];
    assert us[0].role == Manager && us[1].role == Telecaller;
    us
  }

  function LowerChar(c: char): char
  {
    if 'A' <= c <= 'Z' then (c as int + 32) as char else c
  }

  /** `String.prototype.toLowerCase`, restricted to ASCII letters. */
  function ToLower(s: string): string
  {
    seq(|s|, i requires 0 <= i < |s| => LowerChar(s[i]))
  }

  lemma ToLowerIdempotent(s: string)
    ensures ToLower(ToLower(s)) == ToLower(s)
  {
    assert forall i :: 0 <= i < |s| ==> LowerChar(LowerChar(s[i])) == LowerChar(s[i]);
  }

  /** The same address up to the case of its letters. */
  predicate SameEmail(a: string, b: string)
  {
    ToLower(a) == ToLower(b)
  }

  /** `Array.prototype.find`: the first user whose email matches. */
  function FindIn(us: seq<User>, email: string): (r: Option<User>)
    ensures r.Some? ==> r.value in us && SameEmail(r.value.email, email)
    ensures r.None? <==> forall u :: u in us ==> !SameEmail(u.email, email)
  {
    if us == [] then None
    else if SameEmail(us[0].email, email) then Some(us[0])
    else FindIn(us[1..], email)
  }

  /** Looks a user up by email; an empty email finds nobody. */
  function FindUserByEmail(email: string): (r: Option<User>)
    ensures email == "" ==> r == None
    ensures r.Some? ==> r.value in Users() && SameEmail(r.value.email, email)
    ensures r.None? <==> email == "" || forall u :: u in Users() ==> !SameEmail(u.email, email)
  {
    if email == "" then None else FindIn(Users(), email)
  }

  /** The user found is the first in directory order whose email matches. */
  lemma {:induction false} FindInFirstMatch(us: seq<User>, email: string)
    requires FindIn(us, email).Some?
    ensures exists i :: 0 <= i < |us| && us[i] == FindIn(us, email).value
                        && SameEmail(us[i].email, email)
                        && forall j :: 0 <= j < i ==> !SameEmail(us[j].email, email)
  {
    if !SameEmail(us[0].email, email) {
      FindInFirstMatch(us[1..], email);
      var i :| 0 <= i < |us[1..]| && us[1..][i] == FindIn(us[1..], email).value
               && SameEmail(us[1..][i].email, email)
               && forall j :: 0 <= j < i ==> !SameEmail(us[1..][j].email, email);
      assert us[i + 1] == us[1..][i];
      assert forall j :: 0 <= j < i + 1 ==> !SameEmail(us[j].email, email) by {
        forall j | 0 <= j < i + 1 ensures !SameEmail(us[j].email, email) {
          if j > 0 {
            assert us[j] == us[1..][j - 1];
          }
        }
      }
    } else {
      assert us[0] == FindIn(us, email).value;
    }
  }

  /** Only the case-folded email matters to the search. */
  lemma {:induction false} FindInCaseInsensitive(us: seq<User>, email: string)
    ensures FindIn(us, email) == FindIn(us, ToLower(email))
  {
    ToLowerIdempotent(email);
    if us != [] {
      FindInCaseInsensitive(us[1..], email);
    }
  }

  /** Changing the case of the input never changes the user found. */
  lemma FindUserCaseInsensitive(email: string)
    ensures FindUserByEmail(email) == FindUserByEmail(ToLower(email))
  {
    FindInCaseInsensitive(Users(), email);
  }

  /** Two emails whose letters differ, case aside, at some position are different addresses. */
  lemma DifferentAt(a: string, b: string, k: nat)
    requires k < |a| && k < |b| && LowerChar(a[k]) != LowerChar(b[k])
    ensures !SameEmail(a, b)
  {
    assert ToLower(a)[k] != ToLower(b)[k];
  }

  /** The directory's emails are pairwise different even ignoring case. */
  lemma DirectoryEmailsDistinct()
    ensures forall i, j :: 0 <= i < j < |Users()| ==> !SameEmail(Users()[i].email, Users()[j].email)
  {
    var e0, e1, e2 := Users()[0].email, Users()[1].email, Users()[2].email;
    DifferentAt(e0, e1, 0);
    DifferentAt(e0, e2, 0);
    DifferentAt(e1, e2, 1);
  }

  /** So at most one directory entry matches any email, and the lookup is unambiguous. */
  lemma AtMostOneMatch(email: string, u: User, v: User)
    requires u in Users() && v in Users()
    requires SameEmail(u.email, email) && SameEmail(v.email, email)
    ensures u == v
  {
    DirectoryEmailsDistinct();
    var i :| 0 <= i < |Users()| && Users()[i] == u;
    var j :| 0 <= j < |Users()| && Users()[j] == v;
    assert SameEmail(Users()[i].email, Users()[j].email);
    assert !(i < j) && !(j < i);
  }

  /** Every directory user is found by their own email, whatever its case. */
  lemma FindsEveryUser(u: User, email: string)
    requires u in Users() && SameEmail(u.email, email)
    ensures FindUserByEmail(email) == Some(u)
  {
    assert u.email != "";
    assert |email| == |ToLower(email)| == |ToLower(u.email)| == |u.email|;
    var r := FindUserByEmail(email);
    assert r.Some?;
    AtMostOneMatch(email, r.value, u);
  }
}
