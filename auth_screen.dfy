/** Signing in and registering (AuthScreen.tsx): the validation of the form against the stored
    users, and the registration that completes once the DISC questionnaire is answered.

    The stored user list is a field of the screen; reading and writing it through the browser's
    storage, its JSON encoding, the clock that stamps identifiers and dates, and
    `encodeURIComponent` are outside the model and supplied by the caller. */
module Auth {
  import opened Util
  import opened Types

  // ---------------------------------------------------------------------------
  // Comparing e-mail addresses

  function LowerChar(c: char): char {
    if 'A' <= c <= 'Z' then (c as int + 32) as char else c
  }

  /** `toLowerCase`, on the ASCII letters. */
  function ToLower(s: string): (r: string)
    ensures |r| == |s| && forall i :: 0 <= i < |s| ==> r[i] == LowerChar(s[i])
  {
    if s == [] then [] else [LowerChar(s[0])] + ToLower(s[1..])
  }

  /** Two addresses are the same account when they agree up to case. */
  predicate SameEmail(a: string, b: string) {
    ToLower(a) == ToLower(b)
  }

  lemma {:induction false} ToLowerIdempotent(s: string)
    ensures ToLower(ToLower(s)) == ToLower(s)
  {
    var once := ToLower(s);
    assert forall i :: 0 <= i < |once| ==> LowerChar(once[i]) == once[i];
  }

  /** Case only: the comparison ignores case and nothing else. */
  lemma SameEmailCase(a: string, b: string)
    ensures SameEmail(a, b) ==> |a| == |b|
    ensures SameEmail(a, ToLower(a))
    ensures a == b ==> SameEmail(a, b)
  {
    ToLowerIdempotent(a);
  }

  /** `users.find(...)`: the position of the first user whose address is `email` up to case. */
  function FindByEmail(users: seq<User>, email: string): (r: Option<nat>)
    ensures r.Some? ==> r.value < |users| && SameEmail(users[r.value].email, email)
    ensures r.Some? ==> forall j :: 0 <= j < r.value ==> !SameEmail(users[j].email, email)
    ensures r.None? <==> forall j :: 0 <= j < |users| ==> !SameEmail(users[j].email, email)
  {
    if users == [] then None
    else if SameEmail(users[0].email, email) then Some(0)
    else
      match FindByEmail(users[1..], email)
      case None => None
      case Some(k) => Some(k + 1)
  }

  /** `users.some(...)`. */
  predicate EmailTaken(users: seq<User>, email: string) {
    exists j :: 0 <= j < |users| && SameEmail(users[j].email, email)
  }

  /** The two searches agree. */
  lemma FindIffTaken(users: seq<User>, email: string)
    ensures FindByEmail(users, email).Some? <==> EmailTaken(users, email)
  {
  }

  // ---------------------------------------------------------------------------
  // Validation

  const EMAIL_NOT_FOUND: string := "EMAIL NÃO ENCONTRADO. VERIFIQUE OU REGISTE-SE."
  const WRONG_PASSWORD: string := "PALAVRA-PASSE INCORRETA. TENTE NOVAMENTE."
  const EMAIL_TAKEN: string := "ESTE EMAIL JÁ ESTÁ REGISTADO. TENTE FAZER LOGIN."
  const PASSWORD_TOO_SHORT: string := "A PALAVRA-PASSE DEVE TER PELO MENOS 6 CARACTERES."
  const MIN_PASSWORD_LENGTH: nat := 6
  const DEFAULT_BRAND: string := "Independente"
  const AVATAR_URL: string := "https://avatar.iran.liara.run/public?username="

  /** What the form holds when it is submitted. */
  datatype Form = Form(email: string, password: string, name: string, brand: string)

  /** The result of one submission: a user to sign in, one waiting for the questionnaire, or
      the error shown. */
  datatype Submission = SignIn(user: User) | AwaitProfile(user: User) | Rejected(message: string)

  function SignInWith(users: seq<User>, email: string, password: string): Submission {
    match FindByEmail(users, email)
    case None => Rejected(EMAIL_NOT_FOUND)
    case Some(i) => if users[i].password != password then Rejected(WRONG_PASSWORD) else SignIn(users[i])
  }

  /** The account a successful registration creates; it has no DISC profile yet. */
  function NewUser(form: Form, id: string, joinedDate: string, encodeUri: string -> string): User {
    User(id, form.name, form.email, form.password,
         if form.brand == "" then DEFAULT_BRAND else form.brand,
         AVATAR_URL + encodeUri(form.name), joinedDate, None)
  }

  function RegisterWith(users: seq<User>, form: Form, id: string, joinedDate: string, encodeUri: string -> string): Submission {
    if EmailTaken(users, form.email) then Rejected(EMAIL_TAKEN)
    else if JsLength(form.password) < MIN_PASSWORD_LENGTH then Rejected(PASSWORD_TOO_SHORT)
    else AwaitProfile(NewUser(form, id, joinedDate, encodeUri))
  }

  /** `handleSubmit`, without its effects. */
  function Submit(isLogin: bool, users: seq<User>, form: Form, id: string, joinedDate: string,
                  encodeUri: string -> string): Submission {
    if isLogin then SignInWith(users, form.email, form.password)
    else RegisterWith(users, form, id, joinedDate, encodeUri)
  }

  /** Signing in succeeds exactly when some user has the address and the first such user has
      the password, and it signs in that user; otherwise it names which check failed. */
  lemma SignInOutcome(users: seq<User>, email: string, password: string)
    ensures var r := SignInWith(users, email, password);
      && (!EmailTaken(users, email) ==> r == Rejected(EMAIL_NOT_FOUND))
      && (EmailTaken(users, email) && !r.SignIn? ==> r == Rejected(WRONG_PASSWORD))
      && (r.SignIn? <==> exists i :: 0 <= i < |users| && SameEmail(users[i].email, email) &&
                           (forall j :: 0 <= j < i ==> !SameEmail(users[j].email, email)) &&
                           users[i].password == password)
      && (r.SignIn? ==> r.user in users && SameEmail(r.user.email, email) && r.user.password == password)
      && !r.AwaitProfile?
  {
    FindIffTaken(users, email);
    var f := FindByEmail(users, email);
    if f.Some? {
      var i := f.value;
      if users[i].password == password {
        assert forall j :: 0 <= j < i ==> !SameEmail(users[j].email, email);
      } else {
        forall k | 0 <= k < |users| && SameEmail(users[k].email, email) &&
                   (forall j :: 0 <= j < k ==> !SameEmail(users[j].email, email))
          ensures users[k].password != password
        {
          assert !(k < i) && !(i < k);
        }
      }
    }
  }

  /** A taken address is refused whatever the password, so it is checked first; a free address
      with a short password is refused; otherwise the account waits for its DISC profile, with
      the fallback brand when none was given. */
  lemma RegisterOutcome(users: seq<User>, form: Form, id: string, joinedDate: string, encodeUri: string -> string)
    ensures var r := RegisterWith(users, form, id, joinedDate, encodeUri);
      && (EmailTaken(users, form.email) ==> r == Rejected(EMAIL_TAKEN))
      && (!EmailTaken(users, form.email) && JsLength(form.password) < 6 ==> r == Rejected(PASSWORD_TOO_SHORT))
      && (r.AwaitProfile? <==> !EmailTaken(users, form.email) && JsLength(form.password) >= 6)
      && !r.SignIn?
      && (r.AwaitProfile? ==>
            && r.user.email == form.email && r.user.password == form.password && r.user.name == form.name
            && r.user.id == id && r.user.joinedDate == joinedDate && r.user.discProfile.None?
            && r.user.brand == (if form.brand == "" then "Independente" else form.brand))
  {
  }

  /** The length is counted in UTF-16 units: three characters outside the Basic Multilingual
      Plane make a long enough password. */
  lemma WidePasswordAccepted(users: seq<User>, form: Form, id: string, joinedDate: string, encodeUri: string -> string)
    requires !EmailTaken(users, form.email) && form.password == "\U{1F511}\U{1F511}\U{1F511}"
    ensures |form.password| == 3 && JsLength(form.password) == 6
    ensures RegisterWith(users, form, id, joinedDate, encodeUri).AwaitProfile?
  {
    var p := form.password;
    assert p[..|p| - 1] == p[..2] && p[..2][..1] == p[..1] && p[..1][..0] == [];
    assert JsLength(p[..1]) == 2;
    assert JsLength(p[..2]) == 4;
  }

  // ---------------------------------------------------------------------------
  // The screen

  /** The screen's state: the mode, the error shown, the account waiting for the questionnaire,
      the stored users, and the users handed to `onLogin`. */
  datatype AuthState = AuthState(isLogin: bool, error: Option<string>, pending: Option<User>,
                                 stored: seq<User>, signedIn: seq<User>)

  function SubmitStep(s: AuthState, form: Form, id: string, joinedDate: string, encodeUri: string -> string): AuthState {
    var cleared := s.(error := None);
    match Submit(s.isLogin, s.stored, form, id, joinedDate, encodeUri)
    case SignIn(u) => cleared.(signedIn := s.signedIn + [u])
    case AwaitProfile(u) => cleared.(pending := Some(u))
    case Rejected(m) => cleared.(error := Some(m))
  }

  /** `handleDiscComplete`. */
  function DiscCompleteStep(s: AuthState, profile: DiscProfile): AuthState {
    if s.pending.None? then s
    else
      var user := s.pending.value.(discProfile := Some(profile));
      s.(stored := s.stored + [user], signedIn := s.signedIn + [user])
  }

  /** Switching between signing in and registering; the effect on `isLogin` clears the error. */
  function ToggleStep(s: AuthState): AuthState {
    s.(isLogin := !s.isLogin, error := None)
  }

  /** No two accounts share an address up to case. */
  predicate DistinctEmails(users: seq<User>) {
    forall i, j :: 0 <= i < j < |users| ==> !SameEmail(users[i].email, users[j].email)
  }

  /** The stored accounts have distinct addresses, and the waiting account's address is still
      free. */
  predicate Registry(s: AuthState) {
    DistinctEmails(s.stored) && (s.pending.Some? ==> !EmailTaken(s.stored, s.pending.value.email))
  }

  /** Completing the questionnaire stores the waiting account, with its profile, after all
      earlier accounts, and signs it in; without a waiting account it does nothing. */
  lemma DiscCompleteEffect(s: AuthState, profile: DiscProfile)
    ensures s.pending.None? ==> DiscCompleteStep(s, profile) == s
    ensures s.pending.Some? ==>
      var r := DiscCompleteStep(s, profile);
      && |r.stored| == |s.stored| + 1 && r.stored[..|s.stored|] == s.stored
      && r.stored[|s.stored|] == s.pending.value.(discProfile := Some(profile))
      && r.signedIn == s.signedIn + [r.stored[|s.stored|]]
  {
  }

  /** Registering stores nothing: only the questionnaire adds the account. */
  lemma SubmitStoresNothing(s: AuthState, form: Form, id: string, joinedDate: string, encodeUri: string -> string)
    ensures SubmitStep(s, form, id, joinedDate, encodeUri).stored == s.stored
    ensures SubmitStep(s, form, id, joinedDate, encodeUri).isLogin == s.isLogin
  {
  }

  lemma ToggleClearsError(s: AuthState)
    ensures ToggleStep(s).error == None && ToggleStep(s).isLogin == !s.isLogin
    ensures ToggleStep(ToggleStep(s)) == s.(error := None)
  {
  }

  /** Submitting and switching modes keep the registry: a registration waits only with a free
      address. */
  lemma RegistryKeptBySubmit(s: AuthState, form: Form, id: string, joinedDate: string, encodeUri: string -> string)
    requires Registry(s)
    ensures Registry(SubmitStep(s, form, id, joinedDate, encodeUri))
    ensures Registry(ToggleStep(s))
  {
  }

  /** Appending an account whose address is free keeps the addresses distinct. */
  lemma AppendDistinct(users: seq<User>, u: User)
    requires DistinctEmails(users) && !EmailTaken(users, u.email)
    ensures DistinctEmails(users + [u])
  {
    var r := users + [u];
    forall i, j | 0 <= i < j < |r|
      ensures !SameEmail(r[i].email, r[j].email)
    {
      if j == |users| {
        assert r[i] == users[i];
      }
    }
  }

  /** Completing the questionnaire never stores two accounts with the same address. (The
      waiting account stays set afterwards; the screen is left as soon as it signs in.) */
  lemma RegistryKeptByCompletion(s: AuthState, profile: DiscProfile)
    requires Registry(s)
    ensures DistinctEmails(DiscCompleteStep(s, profile).stored)
  {
    if s.pending.Some? {
      AppendDistinct(s.stored, s.pending.value.(discProfile := Some(profile)));
    }
  }

  class AuthScreen {
    var state: AuthState

    /** A fresh screen in sign-in mode over the stored users. */
    constructor(stored: seq<User>)
      ensures state == AuthState(true, None, None, stored, [])
    {
      state := AuthState(true, None, None, stored, []);
    }

    /** `handleSubmit`, with the identifier and the date of a new account supplied. */
    method HandleSubmit(form: Form, id: string, joinedDate: string, encodeUri: string -> string)
      modifies this
      ensures state == SubmitStep(old(state), form, id, joinedDate, encodeUri)
    {
      var users := state.stored;
      state := state.(error := None);
      if state.isLogin {
        var found := FindByEmail(users, form.email);
        if found.None? {
          state := state.(error := Some(EMAIL_NOT_FOUND));
          return;
        }
        var user := users[found.value];
        if user.password != form.password {
          state := state.(error := Some(WRONG_PASSWORD));
          return;
        }
        state := state.(signedIn := state.signedIn + [user]);
      } else {
        var taken := FindByEmail(users, form.email).Some?;
        FindIffTaken(users, form.email);
        if taken {
          state := state.(error := Some(EMAIL_TAKEN));
          return;
        }
        if JsLength(form.password) < MIN_PASSWORD_LENGTH {
          state := state.(error := Some(PASSWORD_TOO_SHORT));
          return;
        }
        state := state.(pending := Some(NewUser(form, id, joinedDate, encodeUri)));
      }
    }

    method HandleDiscComplete(profile: DiscProfile)
      modifies this
      ensures state == DiscCompleteStep(old(state), profile)
    {
      if state.pending.None? {
        return;
      }
      var user := state.pending.value.(discProfile := Some(profile));
      state := state.(stored := state.stored + [user]);
      state := state.(signedIn := state.signedIn + [user]);
    }

    method ToggleMode()
      modifies this
      ensures state == ToggleStep(old(state))
    {
      state := state.(isLogin := !state.isLogin);
      state := state.(error := None);
    }
  }
}
