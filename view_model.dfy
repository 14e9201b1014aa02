/**
 * SignUpViewModel (ViewModels/SignUpViewModel.swift): four field strings the view binds to,
 * four error strings it displays, and one subscription that derives `usernameError` from
 * `username`. The subscription is `$username` mapped to "is non-empty", with its first
 * emission dropped, mapped to a message and assigned to `usernameError`.
 *
 * Delivery on the main run loop is treated as happening straight after each assignment.
 */
module ViewModel {

  const UsernameMissing := "Username is missing"

  /** The username-valid publisher's `map`: a username is valid when it is not empty. */
  function UsernameValid(username: string): (valid: bool)
    ensures valid <==> username != []
  {
    |username| > 0
  }

  /** The subscription's second `map`: the message shown for one validity value. */
  function UsernameMessage(valid: bool): (message: string)
    ensures message == "" <==> valid
    ensures message == UsernameMissing <==> !valid
  {
    if valid then "" else UsernameMissing
  }

  /** The whole observable state of the view-model, plus whether `dropFirst` has spent its one drop. */
  datatype FormState = FormState(
    username: string,
    email: string,
    password: string,
    confirmPassword: string,
    usernameError: string,
    emailError: string,
    passwordError: string,
    confirmPasswordError: string,
    firstEmissionDropped: bool)

  /** The stored-property initialisers, before `init` subscribes. */
  const Declared := FormState("", "", "", "", "", "", "", "", false)

  /** One value reaching `dropFirst`: the first is swallowed, every later one is assigned as a message. */
  function AfterEmission(s: FormState, valid: bool): (t: FormState)
    ensures t.firstEmissionDropped
    ensures s.firstEmissionDropped ==> t.usernameError == UsernameMessage(valid)
    ensures !s.firstEmissionDropped ==> t.usernameError == s.usernameError
    ensures t.(usernameError := s.usernameError, firstEmissionDropped := s.firstEmissionDropped) == s
  {
    if !s.firstEmissionDropped then s.(firstEmissionDropped := true)
    else s.(usernameError := UsernameMessage(valid))
  }

  /** `init`: subscribing to `$username` emits its current value at once. */
  const Initial := AfterEmission(Declared, UsernameValid(Declared.username))

  /** The state right after `init`: every string empty, the initial emission already dropped. */
  lemma InitialState()
    ensures Initial.username == "" && Initial.email == "" && Initial.password == "" && Initial.confirmPassword == ""
    ensures Initial.usernameError == "" && Initial.emailError == "" && Initial.passwordError == ""
    ensures Initial.confirmPasswordError == ""
    ensures Initial.firstEmissionDropped
    ensures Initial.usernameError != UsernameMessage(UsernameValid(Initial.username))
  {
  }

  /** `username = u`: `@Published` emits the new value through the subscription. */
  function AssignUsername(s: FormState, u: string): (t: FormState)
    ensures t.username == u && t.firstEmissionDropped
    ensures s.firstEmissionDropped ==> (t.usernameError == "" <==> u != [])
    ensures s.firstEmissionDropped ==> (t.usernameError == UsernameMissing <==> u == [])
    ensures !s.firstEmissionDropped ==> t.usernameError == s.usernameError
    ensures t.(username := s.username, usernameError := s.usernameError, firstEmissionDropped := s.firstEmissionDropped) == s
  {
    AfterEmission(s.(username := u), UsernameValid(u))
  }

  /** The other three `@Published` fields have no subscriber: assigning one only stores it. */
  function AssignEmail(s: FormState, e: string): FormState { s.(email := e) }
  function AssignPassword(s: FormState, p: string): FormState { s.(password := p) }
  function AssignConfirmPassword(s: FormState, c: string): FormState { s.(confirmPassword := c) }

  /** An assignment to one of the three fields nothing subscribes to. */
  datatype OtherEdit = EmailEdit(e: string) | PasswordEdit(p: string) | ConfirmPasswordEdit(c: string)

  function ApplyOther(s: FormState, edit: OtherEdit): FormState
  {
    match edit
    case EmailEdit(e) => AssignEmail(s, e)
    case PasswordEdit(p) => AssignPassword(s, p)
    case ConfirmPasswordEdit(c) => AssignConfirmPassword(s, c)
  }

  /** A run of assignments to the other three fields, oldest first. */
  function ReplayOthers(s: FormState, edits: seq<OtherEdit>): FormState
    decreases |edits|
  {
    if edits == [] then s else ReplayOthers(ApplyOther(s, edits[0]), edits[1..])
  }

  /** Assignments to the other fields leave the username, its error and the drop flag as they were. */
  lemma {:induction false} ReplayOthersKeepsUsername(s: FormState, edits: seq<OtherEdit>)
    ensures var t := ReplayOthers(s, edits);
      t.username == s.username && t.usernameError == s.usernameError
      && t.firstEmissionDropped == s.firstEmissionDropped
    decreases |edits|
  {
    if edits != [] {
      ReplayOthersKeepsUsername(ApplyOther(s, edits[0]), edits[1..]);
    }
  }

  /** A run of username assignments, oldest first. */
  function Replay(s: FormState, usernames: seq<string>): (t: FormState)
    ensures t.firstEmissionDropped <==> s.firstEmissionDropped || usernames != []
    decreases |usernames|
  {
    if usernames == [] then s else Replay(AssignUsername(s, usernames[0]), usernames[1..])
  }

  /** Once the first emission is dropped, the error is the message for the latest username. */
  lemma {:induction false} ReplayLatest(s: FormState, usernames: seq<string>)
    requires s.firstEmissionDropped && usernames != []
    ensures Replay(s, usernames).firstEmissionDropped
    ensures Replay(s, usernames).username == usernames[|usernames| - 1]
    ensures Replay(s, usernames).usernameError == UsernameMessage(UsernameValid(usernames[|usernames| - 1]))
    decreases |usernames|
  {
    if |usernames| > 1 {
      ReplayLatest(AssignUsername(s, usernames[0]), usernames[1..]);
    }
  }

  /** Username assignments never touch the other fields or their errors. */
  lemma {:induction false} ReplayKeepsOtherFields(s: FormState, usernames: seq<string>)
    ensures var t := Replay(s, usernames);
      t.email == s.email && t.password == s.password && t.confirmPassword == s.confirmPassword
      && t.emailError == s.emailError && t.passwordError == s.passwordError
      && t.confirmPasswordError == s.confirmPasswordError
    decreases |usernames|
  {
    if usernames != [] {
      ReplayKeepsOtherFields(AssignUsername(s, usernames[0]), usernames[1..]);
    }
  }

  /** `usernameError` only ever holds "" or "Username is missing". */
  lemma {:induction false} ReplayErrorInRange(s: FormState, usernames: seq<string>)
    requires s.usernameError == "" || s.usernameError == UsernameMissing
    ensures Replay(s, usernames).usernameError == "" || Replay(s, usernames).usernameError == UsernameMissing
    decreases |usernames|
  {
    if usernames != [] {
      ReplayErrorInRange(AssignUsername(s, usernames[0]), usernames[1..]);
    }
  }

  /** Replaying two runs one after the other is replaying their concatenation. */
  lemma {:induction false} ReplayAppend(s: FormState, first: seq<string>, second: seq<string>)
    ensures Replay(s, first + second) == Replay(Replay(s, first), second)
    decreases |first|
  {
    if first != [] {
      assert (first + second)[1..] == first[1..] + second;
      ReplayAppend(AssignUsername(s, first[0]), first[1..], second);
    } else {
      assert first + second == second;
    }
  }

  /** After the first emission is dropped, the state depends only on the latest username. */
  lemma HistoryIndependent(s: FormState, us: seq<string>, vs: seq<string>)
    requires s.firstEmissionDropped && us != [] && vs != []
    requires us[|us| - 1] == vs[|vs| - 1]
    ensures Replay(s, us) == Replay(s, vs)
  {
    ReplayLatest(s, us);
    ReplayLatest(s, vs);
    ReplayKeepsOtherFields(s, us);
    ReplayKeepsOtherFields(s, vs);
  }

  /** Assigning the same username again changes nothing. */
  lemma RepeatAssignment(s: FormState, usernames: seq<string>, u: string)
    requires s.firstEmissionDropped
    ensures Replay(s, usernames + [u, u]) == Replay(s, usernames + [u])
  {
    HistoryIndependent(s, usernames + [u, u], usernames + [u]);
  }

  /**
   * Until the first username assignment the error stays "", although the empty username is not
   * valid, whatever is typed into the other fields meanwhile.
   */
  lemma NoErrorBeforeFirstAssignment(edits: seq<OtherEdit>)
    ensures ReplayOthers(Initial, edits).usernameError == ""
    ensures !UsernameValid(ReplayOthers(Initial, edits).username)
  {
    ReplayOthersKeepsUsername(Initial, edits);
  }

  /** The view-model object. `Valid` holds from the end of `init` on. */
  class SignUpViewModel {
    var username: string
    var email: string
    var password: string
    var confirmPassword: string
    var usernameError: string
    var emailError: string
    var passwordError: string
    var confirmPasswordError: string
    /** Whether `dropFirst` has already swallowed its one value. */
    var firstEmissionDropped: bool

    function State(): FormState
      reads this
    {
      FormState(username, email, password, confirmPassword,
                usernameError, emailError, passwordError, confirmPasswordError, firstEmissionDropped)
    }

    predicate Valid()
      reads this
    {
      firstEmissionDropped && (usernameError == "" || usernameError == UsernameMissing)
    }

    constructor ()
      ensures Valid() && State() == Initial
      ensures username == "" && email == "" && password == "" && confirmPassword == ""
      ensures usernameError == "" && emailError == "" && passwordError == "" && confirmPasswordError == ""
    {
      username, email, password, confirmPassword := "", "", "", "";
      usernameError, emailError, passwordError, confirmPasswordError := "", "", "", "";
      firstEmissionDropped := false;
      new;
      Emit(UsernameValid(username));
    }

    /** One value arriving at `dropFirst` and, past it, at `assign(to: \.usernameError, on: self)`. */
    method Emit(valid: bool)
      modifies this
      ensures State() == AfterEmission(old(State()), valid)
    {
      if !firstEmissionDropped {
        firstEmissionDropped := true;
      } else {
        usernameError := UsernameMessage(valid);
      }
    }

    /** `username = u`, with the subscription run to completion. */
    method SetUsername(u: string)
      requires Valid()
      modifies this
      ensures Valid() && State() == AssignUsername(old(State()), u)
      ensures username == u && usernameError == UsernameMessage(UsernameValid(u))
      ensures unchanged(this`email, this`password, this`confirmPassword)
      ensures unchanged(this`emailError, this`passwordError, this`confirmPasswordError)
    {
      username := u;
      Emit(UsernameValid(u));
    }

    method SetEmail(e: string)
      requires Valid()
      modifies this
      ensures Valid() && State() == AssignEmail(old(State()), e)
    {
      email := e;
    }

    method SetPassword(p: string)
      requires Valid()
      modifies this
      ensures Valid() && State() == AssignPassword(old(State()), p)
    {
      password := p;
    }

    method SetConfirmPassword(c: string)
      requires Valid()
      modifies this
      ensures Valid() && State() == AssignConfirmPassword(old(State()), c)
    {
      confirmPassword := c;
    }
  }

  /** A client of the class: what the contracts alone let a caller conclude. */
  method TypingSession()
  {
    var vm := new SignUpViewModel();
    assert vm.usernameError == "";
    vm.SetUsername("alice");
    assert vm.usernameError == "";
    vm.SetEmail("alice@example.com");
    vm.SetUsername("");
    assert vm.usernameError == UsernameMissing && vm.email == "alice@example.com";
  }
}
