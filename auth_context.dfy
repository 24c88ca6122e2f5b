/**
 * The authentication provider: one persisted user (the JSON text under the
 * browser storage slot `pulseapi_user`) and the in-memory current user with
 * its `loading` flag, changed by the mount effect, `signUp`, `signIn`,
 * `signOut` and `updateUser`.
 *
 * `crypto.randomUUID()` and `new Date().toISOString()` are the `id` and
 * `createdAt` parameters of the methods that create a user; JSON.parse and
 * JSON.stringify are the `Codec`.
 */
module Auth {
  import opened Wrappers
  import opened Json

  /** A user record: `{ id, email, name, initials, plan, createdAt }`, plus
      whatever `updateUser` merged in. */
  type User = Object

  /** `{ success: true, user }`. */
  datatype AuthResult = AuthResult(success: bool, user: User)

  // ----- Derived fields -----

  /** `email.split('@')[0]`: everything before the first '@', or the whole
      text when it has none. */
  function LocalPart(email: string): (r: string)
    ensures r <= email
    ensures '@' !in r
    ensures |r| < |email| ==> email[|r|] == '@'
  {
    if email == [] || email[0] == '@' then []
    else [email[0]] + LocalPart(email[1..])
  }

  /** Upper-casing of one character, for the ASCII letters. */
  function UpperChar(ch: char): char {
    if 'a' <= ch <= 'z' then (ch as int - 'a' as int + 'A' as int) as char else ch
  }

  /** `s.toUpperCase()`, character by character. */
  function ToUpperCase(s: string): (r: string)
    ensures |r| == |s|
    ensures forall i :: 0 <= i < |s| ==> r[i] == UpperChar(s[i])
  {
    if s == [] then [] else [UpperChar(s[0])] + ToUpperCase(s[1..])
  }

  /** `name || email.split('@')[0]`. */
  function DisplayName(email: string, name: string): (r: string)
    ensures name != "" ==> r == name
    ensures name == "" ==> r <= email && '@' !in r && (|r| < |email| ==> email[|r|] == '@')
  {
    if name != "" then name else LocalPart(email)
  }

  /** `(name || email).slice(0, 2).toUpperCase()`: note that the fallback is
      the whole email, not its local part. */
  function Initials(email: string, name: string): (r: string)
    ensures var source := if name != "" then name else email;
      && |r| == (if |source| < 2 then |source| else 2)
      && forall i :: 0 <= i < |r| ==> r[i] == UpperChar(source[i]) && !('a' <= r[i] <= 'z')
  {
    var source := if name != "" then name else email;
    ToUpperCase(if |source| < 2 then source else source[..2])
  }

  /** The record `signUp` builds. */
  function NewUser(id: string, email: string, name: string, createdAt: string): (u: User)
    ensures u.Keys == {"id", "email", "name", "initials", "plan", "createdAt"}
    ensures u["id"] == Str(id) && u["email"] == Str(email) && u["createdAt"] == Str(createdAt)
    ensures u["name"] == Str(if name != "" then name else LocalPart(email))
    ensures u["initials"] == Str(Initials(email, name)) && u["plan"] == Str("free")
  {
    map[
      "id" := Str(id),
      "email" := Str(email),
      "name" := Str(DisplayName(email, name)),
      "initials" := Str(Initials(email, name)),
      "plan" := Str("free"),
      "createdAt" := Str(createdAt)
    ]
  }

  /** `signIn` names a new user after the email's local part. When that
      part is empty both fall back to the email; otherwise the initials are
      those `signUp` gives for an empty name exactly when the local part has
      at least two characters or is the whole email (for `a@x.io` sign-up
      takes the '@' into the initials and sign-in does not). */
  lemma {:induction false} SignInInitials(email: string)
    ensures LocalPart(email) == "" ==> Initials(email, LocalPart(email)) == Initials(email, "")
    ensures LocalPart(email) != "" ==>
              (|LocalPart(email)| >= 2 || LocalPart(email) == email <==>
               Initials(email, LocalPart(email)) == Initials(email, ""))
  {
    var local := LocalPart(email);
    if local == "" {
    } else if |local| >= 2 {
      assert local[..2] == email[..2];
    } else if local != email {
      assert |Initials(email, local)| == 1;
      assert |Initials(email, "")| == 2;
    }
  }

  /** `existingUser.email === email`. */
  predicate EmailIs(u: User, email: string) {
    "email" in u && u["email"] == Str(email)
  }

  /** A user built by `signUp` matches exactly its own email: strict
      equality on a string field leaves no other email that matches. */
  lemma NewUserMatchesOwnEmail(id: string, email: string, name: string, createdAt: string, typed: string)
    ensures EmailIs(NewUser(id, email, name, createdAt), typed) <==> typed == email
  {
  }

  /** The user the slot describes: `if (stored) JSON.parse(stored)`. */
  function StoredUser(c: Codec, stored: Option<string>): (r: Option<User>)
    ensures stored == None || stored == Some("") ==> r == None
    ensures r.Some? ==> stored.Some? && c.parse(stored.value) == r
  {
    if stored.Some? && stored.value != "" then c.parse(stored.value) else None
  }

  /** `JSON.parse(stored)` does not throw where `if (stored)` lets it run. */
  function Readable(c: Codec, stored: Option<string>): (r: bool)
    ensures r <==> stored == None || stored == Some("") || StoredUser(c, stored).Some?
  {
    stored.Some? && stored.value != "" ==> c.parse(stored.value).Some?
  }

  /** After any sign-up the slot reads back the new user. */
  lemma WrittenUserReadsBack(c: Codec, u: User)
    requires Sound(c)
    ensures StoredUser(c, Some(c.stringify(u))) == Some(u)
    ensures Readable(c, Some(c.stringify(u)))
  {
    assert c.stringify(u) != "";
  }

  // ----- The provider's state -----

  class AuthProvider {
    const codec: Codec
    /** `localStorage['pulseapi_user']`. */
    var stored: Option<string>
    /** `const [user, setUser] = useState(null)`. */
    var user: Option<User>
    /** `const [loading, setLoading] = useState(true)`. */
    var loading: bool

    /** A current user is always the one the slot describes; once the mount
        effect has run, the slot is readable and the current user mirrors it
        exactly, absent or present. */
    ghost predicate Valid()
      reads this
    {
      && Sound(codec)
      && (user.Some? ==> user == StoredUser(codec, stored))
      && (!loading ==> user == StoredUser(codec, stored) && Readable(codec, stored))
    }

    /** Mounting the provider: no user yet, loading. */
    constructor (codec: Codec, stored: Option<string>)
      requires Sound(codec)
      ensures Valid()
      ensures this.codec == codec && this.stored == stored
      ensures user == None && loading
    {
      this.codec := codec;
      this.stored := stored;
      user := None;
      loading := true;
    }

    /** The mount effect: a parsable stored user becomes the current user,
        unparsable text is removed from the slot, and loading ends. */
    method Init()
      requires Valid()
      modifies this
      ensures Valid() && !loading
      ensures old(StoredUser(codec, stored)).Some? ==> user == old(StoredUser(codec, stored)) && stored == old(stored)
      ensures !old(Readable(codec, stored)) ==> stored == None && user == None
      ensures old(stored) == None || old(stored) == Some("") ==> stored == old(stored) && user == None
    {
      var s := stored;
      if s.Some? && s.value != "" {
        var parsed := codec.parse(s.value);
        if parsed.Some? {
          user := parsed;
        } else {
          stored := None;
        }
      }
      loading := false;
    }

    /** `signUp(email, password, name)`: build the new user, write it to the
        slot and make it current. The password is not used. */
    method SignUp(email: string, password: string, name: string, id: string, createdAt: string)
      returns (r: AuthResult)
      requires Valid()
      modifies this
      ensures Valid() && loading == old(loading)
      ensures r == AuthResult(true, NewUser(id, email, name, createdAt))
      ensures user == Some(r.user) && stored == Some(codec.stringify(r.user))
    {
      var newUser := NewUser(id, email, name, createdAt);
      stored := Some(codec.stringify(newUser));
      user := Some(newUser);
      WrittenUserReadsBack(codec, newUser);
      r := AuthResult(true, newUser);
    }

    /** `signIn(email, password)`: the stored user when its email matches,
        made current without writing the slot; otherwise a sign-up under the
        email's local part, which overwrites the slot. The password is not
        used. `None` is the SyntaxError that JSON.parse throws on an
        unreadable slot, which cannot happen once the mount effect has run. */
    method SignIn(email: string, password: string, id: string, createdAt: string)
      returns (r: Option<AuthResult>)
      requires Valid()
      modifies this
      ensures Valid() && loading == old(loading)
      ensures r.None? <==> !old(Readable(codec, stored))
      ensures !old(loading) ==> r.Some?
      ensures r.None? ==> stored == old(stored) && user == old(user)
      ensures r.Some? ==> r.value.success && user == Some(r.value.user)
      ensures old(StoredUser(codec, stored)).Some? && EmailIs(old(StoredUser(codec, stored)).value, email) ==>
                r == Some(AuthResult(true, old(StoredUser(codec, stored)).value)) && stored == old(stored)
      ensures old(Readable(codec, stored)) &&
              !(old(StoredUser(codec, stored)).Some? && EmailIs(old(StoredUser(codec, stored)).value, email)) ==>
                r == Some(AuthResult(true, NewUser(id, email, LocalPart(email), createdAt))) &&
                stored == Some(codec.stringify(r.value.user))
    {
      var s := stored;
      if s.Some? && s.value != "" {
        var parsed := codec.parse(s.value);
        if parsed.None? {
          return None;
        }
        var existingUser := parsed.value;
        if EmailIs(existingUser, email) {
          user := Some(existingUser);
          return Some(AuthResult(true, existingUser));
        }
      }
      var created := SignUp(email, password, LocalPart(email), id, createdAt);
      r := Some(created);
    }

    /** `signOut()`: clear the slot and the current user. */
    method SignOut()
      requires Valid()
      modifies this
      ensures Valid() && loading == old(loading)
      ensures stored == None && user == None
    {
      stored := None;
      user := None;
    }

    /** `updateUser(updates)`: `{ ...user, ...updates }` becomes the current
        user and is written to the slot. */
    method UpdateUser(updates: Object)
      requires Valid()
      modifies this
      ensures Valid() && loading == old(loading)
      ensures var before := if old(user).Some? then old(user).value else map[];
        && user == Some(before + updates)
        && stored == Some(codec.stringify(before + updates))
        && user.value.Keys == before.Keys + updates.Keys
        && (forall k :: k in updates ==> user.value[k] == updates[k])
        && (forall k :: k in before && k !in updates ==> user.value[k] == before[k])
    {
      var updated := (if user.Some? then user.value else map[]) + updates;
      stored := Some(codec.stringify(updated));
      user := Some(updated);
      WrittenUserReadsBack(codec, updated);
    }
  }

  // ----- Sessions across calls -----

  /** Signing in with the email one signed up with gives back the very user
      that sign-up created, whatever password is typed. */
  method SignInFindsSignedUpUser(
    codec: Codec, stored: Option<string>, email: string, name: string, id: string, createdAt: string,
    password: string, laterPassword: string, laterId: string, laterCreatedAt: string)
    returns (signedUp: User, signedIn: User)
    requires Sound(codec)
    ensures signedUp == NewUser(id, email, name, createdAt)
    ensures signedIn == signedUp
  {
    var auth := new AuthProvider(codec, stored);
    auth.Init();
    var up := auth.SignUp(email, password, name, id, createdAt);
    var inResult := auth.SignIn(email, laterPassword, laterId, laterCreatedAt);
    signedUp, signedIn := up.user, inResult.value.user;
  }

  /** Signing out forgets the account: signing in again with the same email
      creates a fresh user with the new id, the local part as its name and
      the free plan. */
  method SignOutForgetsAccount(
    codec: Codec, stored: Option<string>, email: string, name: string, id: string, createdAt: string,
    password: string, laterId: string, laterCreatedAt: string)
    returns (first: User, second: User)
    requires Sound(codec)
    ensures first == NewUser(id, email, name, createdAt)
    ensures second == NewUser(laterId, email, LocalPart(email), laterCreatedAt)
    ensures id != laterId ==> first != second
  {
    var auth := new AuthProvider(codec, stored);
    auth.Init();
    var up := auth.SignUp(email, password, name, id, createdAt);
    auth.SignOut();
    var again := auth.SignIn(email, password, laterId, laterCreatedAt);
    first, second := up.user, again.value.user;
    assert first["id"] == Str(id) && second["id"] == Str(laterId);
  }
}
