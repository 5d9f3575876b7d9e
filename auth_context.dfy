/** The authentication provider: the signed-in user, the live copy of their
    `users/{uid}` document, and the operations that write that document
    (profile merge, My-List union and removal, sign-up and guest documents).
    Firebase Auth outcomes are inputs; the Firestore `users` collection is a
    map held by the provider so that writes and later snapshots can be related. */
module AuthContext {
  import opened Common
  import opened Strings
  import opened Media

  /** A `users/{uid}` document, or a partial update of one: a missing field is
      one the document lacks, or one the update does not supply. */
  datatype UserDoc = UserDoc(
    phoneNumber: Option<string>,
    name: Option<string>,
    surname: Option<string>,
    avatar: Option<string>,
    myList: Option<seq<Movie>>,
    isGuest: Option<bool>,
    createdAt: Option<string>)

  /** The update that supplies nothing. */
  const NO_FIELDS: UserDoc := UserDoc(None, None, None, None, None, None, None)

  function Pick<T>(patch: Option<T>, kept: Option<T>): Option<T> {
    if patch.Some? then patch else kept
  }

  /** `setDoc(ref, patch, { merge: true })` on a document that may not exist yet. */
  function Merge(stored: Option<UserDoc>, patch: UserDoc): UserDoc {
    var d := stored.GetOr(NO_FIELDS);
    UserDoc(
      Pick(patch.phoneNumber, d.phoneNumber), Pick(patch.name, d.name), Pick(patch.surname, d.surname),
      Pick(patch.avatar, d.avatar), Pick(patch.myList, d.myList), Pick(patch.isGuest, d.isGuest),
      Pick(patch.createdAt, d.createdAt))
  }

  /** A merge with nothing supplied leaves a stored document as it was. */
  lemma MergeNothing(d: UserDoc)
    ensures Merge(Some(d), NO_FIELDS) == d
  {
  }

  /** Merging the same update twice is the same as merging it once. */
  lemma MergeIdempotent(stored: Option<UserDoc>, patch: UserDoc)
    ensures Merge(Some(Merge(stored, patch)), patch) == Merge(stored, patch)
  {
  }

  /** A merge overwrites exactly the supplied fields and keeps every other
      field of the stored document (a new document lacks them). */
  lemma MergeFields(stored: Option<UserDoc>, patch: UserDoc)
    ensures var r := Merge(stored, patch); var d := stored.GetOr(NO_FIELDS);
      r.phoneNumber == (if patch.phoneNumber.Some? then patch.phoneNumber else d.phoneNumber) &&
      r.name == (if patch.name.Some? then patch.name else d.name) &&
      r.surname == (if patch.surname.Some? then patch.surname else d.surname) &&
      r.avatar == (if patch.avatar.Some? then patch.avatar else d.avatar) &&
      r.myList == (if patch.myList.Some? then patch.myList else d.myList) &&
      r.isGuest == (if patch.isGuest.Some? then patch.isGuest else d.isGuest) &&
      r.createdAt == (if patch.createdAt.Some? then patch.createdAt else d.createdAt)
  {
  }

  // ---------------------------------------------------------------- My List

  /** Firestore `arrayUnion(m)` applied to a stored field: `m` is appended
      unless an equal element is already there; a missing field becomes `[m]`. */
  function ArrayUnion(list: Option<seq<Movie>>, m: Movie): (r: seq<Movie>)
    ensures m in r
    ensures forall x :: x in r <==> x == m || x in list.GetOr([])
    ensures list.GetOr([]) <= r && |r| <= |list.GetOr([])| + 1
    ensures m in list.GetOr([]) ==> r == list.GetOr([])
    ensures m !in list.GetOr([]) ==> r == list.GetOr([]) + [m]
  {
    var l := list.GetOr([]);
    if m in l then l else l + [m]
  }

  /** Adding the same movie twice leaves a single copy. */
  lemma ArrayUnionTwice(list: Option<seq<Movie>>, m: Movie)
    ensures ArrayUnion(Some(ArrayUnion(list, m)), m) == ArrayUnion(list, m)
    ensures m !in list.GetOr([]) ==> multiset(ArrayUnion(list, m))[m] == 1
  {
    var l := list.GetOr([]);
    if m !in l {
      assert multiset(l)[m] == 0;
      assert multiset(l + [m]) == multiset(l) + multiset{m};
    }
  }

  function NotEqualTo(m: Movie): Movie -> bool {
    x => x != m
  }

  /** Firestore `arrayRemove(m)` applied to a stored field: every element equal
      to `m` goes, the others keep their order; a missing field becomes `[]`. */
  function ArrayRemove(list: Option<seq<Movie>>, m: Movie): (r: seq<Movie>)
    ensures m !in r
    ensures forall x :: x in r <==> x in list.GetOr([]) && x != m
    ensures |r| <= |list.GetOr([])|
  {
    Filter(list.GetOr([]), NotEqualTo(m))
  }

  /** Removal works element by element: on a concatenation it is the
      concatenation of the two removals, ... */
  lemma ArrayRemoveConcat(a: seq<Movie>, b: seq<Movie>, m: Movie)
    ensures ArrayRemove(Some(a + b), m) == ArrayRemove(Some(a), m) + ArrayRemove(Some(b), m)
  {
    FilterConcat(a, b, NotEqualTo(m));
  }

  /** ... and a single element goes exactly when it equals `m`. */
  lemma ArrayRemoveSingle(x: Movie, m: Movie)
    ensures ArrayRemove(Some([x]), m) == if x == m then [] else [x]
  {
    assert [x][1..] == [];
  }

  /** Removing a value that is not there changes nothing. */
  lemma ArrayRemoveAbsent(list: seq<Movie>, m: Movie)
    requires m !in list
    ensures ArrayRemove(Some(list), m) == list
  {
    FilterAll(list, NotEqualTo(m));
  }

  predicate HasId(id: int, m: Movie) {
    m.id == id
  }

  /** `userData.myList.find(m => m.id === movieId)`. */
  function EntryWithId(list: seq<Movie>, id: int): (r: Option<Movie>)
    ensures r.Some? ==> r.value in list && r.value.id == id
    ensures r.None? <==> forall i :: 0 <= i < |list| ==> list[i].id != id
    ensures r.Some? ==> exists i :: 0 <= i < |list| && list[i] == r.value && forall j :: 0 <= j < i ==> list[j].id != id
  {
    Find(list, m => HasId(id, m))
  }

  /** `userData?.myList?.some(m => m.id === movieId) ?? false`. */
  function ListHasId(userData: Option<UserDoc>, id: int): (r: bool)
    ensures r <==> (userData.Some? && userData.value.myList.Some? &&
      exists i :: 0 <= i < |userData.value.myList.value| && userData.value.myList.value[i].id == id)
  {
    userData.Some? && userData.value.myList.Some? && Any(userData.value.myList.value, m => HasId(id, m))
  }

  /** Add then remove by id restores the list when no entry had that id. */
  lemma {:induction false} AddThenRemove(list: Option<seq<Movie>>, m: Movie)
    requires forall i :: 0 <= i < |list.GetOr([])| ==> list.GetOr([])[i].id != m.id
    ensures EntryWithId(ArrayUnion(list, m), m.id) == Some(m)
    ensures ArrayRemove(Some(ArrayUnion(list, m)), m) == list.GetOr([])
  {
    var l := list.GetOr([]);
    assert m !in l;
    assert ArrayUnion(list, m) == l + [m];
    var found := EntryWithId(l + [m], m.id);
    assert found.Some?;
    assert found.value in l + [m] && found.value.id == m.id;
    assert found.value == m;
    FilterConcat(l, [m], NotEqualTo(m));
    FilterAll(l, NotEqualTo(m));
    assert Filter([m], NotEqualTo(m)) == [];
  }

  /** No two entries of the list share an id. */
  predicate UniqueIds(list: seq<Movie>) {
    forall i, j :: 0 <= i < j < |list| ==> list[i].id != list[j].id
  }

  /** The toggle in the hero banner keeps ids unique: it adds a movie only
      when no entry has its id, and removal only drops entries. */
  lemma UniqueIdsPreserved(list: seq<Movie>, m: Movie)
    requires UniqueIds(list)
    ensures (forall i :: 0 <= i < |list| ==> list[i].id != m.id) ==> UniqueIds(ArrayUnion(Some(list), m))
    ensures UniqueIds(ArrayRemove(Some(list), m))
  {
    FilterKeepsUnique(list, m);
  }

  lemma {:induction false} FilterKeepsUnique(list: seq<Movie>, m: Movie)
    requires UniqueIds(list)
    ensures UniqueIds(Filter(list, NotEqualTo(m)))
  {
    if list != [] {
      FilterKeepsUnique(list[1..], m);
      var rest := Filter(list[1..], NotEqualTo(m));
      forall j | 0 <= j < |rest| ensures rest[j].id != list[0].id {
        assert rest[j] in rest;
        assert rest[j] in list[1..];
      }
    }
  }

  // ---------------------------------------------------------------- sign-in and initial documents

  const EMAIL_DOMAIN: string := "@pleura.app"

  /** `formatEmail(phone)`. */
  function FormatEmail(phone: string): string {
    phone + EMAIL_DOMAIN
  }

  /** Reads the phone back out of an account e-mail. */
  function PhoneOfEmail(email: string): Option<string> {
    if EndsWith(email, EMAIL_DOMAIN) then Some(email[..|email| - |EMAIL_DOMAIN|]) else None
  }

  lemma FormatEmailRoundTrip(phone: string)
    ensures PhoneOfEmail(FormatEmail(phone)) == Some(phone)
  {
    var e := FormatEmail(phone);
    assert e[|e| - |EMAIL_DOMAIN|..] == EMAIL_DOMAIN;
    assert e[..|phone|] == phone;
  }

  const MISSING_CREDENTIALS: SdkError := SdkError("", "Please enter phone and password")

  /** The input check and e-mail of `signIn` and `signUp`: the account
      e-mail is the phone without any whitespace, at the app's domain. */
  function CredentialsEmail(phone: string, password: string): (r: Sdk<string>)
    ensures r.Threw? <==> phone == "" || password == ""
    ensures r.Threw? ==> r.error == MISSING_CREDENTIALS
    ensures r.Done? ==> PhoneOfEmail(r.value) == Some(RemoveSpaces(phone))
    ensures r.Done? ==> forall i :: 0 <= i < |r.value| - |EMAIL_DOMAIN| ==> !IsSpace(r.value[i])
  {
    if phone == "" || password == "" then Threw(MISSING_CREDENTIALS)
    else
      FormatEmailRoundTrip(RemoveSpaces(phone));
      Done(FormatEmail(RemoveSpaces(phone)))
  }

  /** The document `signUp` writes: the phone as typed and an empty profile. */
  function SignUpDoc(phone: string, createdAt: string): (d: UserDoc)
    ensures d.phoneNumber == Some(phone) && d.createdAt == Some(createdAt)
    ensures d.name == Some("") && d.surname == Some("") && d.avatar == Some("") && d.myList == Some([])
    ensures d.isGuest.None?
  {
    UserDoc(Some(phone), Some(""), Some(""), Some(""), Some([]), None, Some(createdAt))
  }

  /** The number of preset avatars the app bundles. */
  const PRESET_COUNT: nat := 12

  /** The key a preset avatar is stored under. */
  function PresetKey(id: nat): string {
    "avatar_" + NatToString(id)
  }

  /** A preset avatar key `avatar_1` .. `avatar_12`. */
  predicate IsPresetAvatar(key: string) {
    exists k: nat :: 1 <= k <= PRESET_COUNT && key == PresetKey(k)
  }

  /** Different presets have different keys. */
  lemma PresetKeyInjective(a: nat, b: nat)
    requires PresetKey(a) == PresetKey(b)
    ensures a == b
  {
    assert NatToString(a) == PresetKey(a)[7..];
    assert NatToString(b) == PresetKey(b)[7..];
    NatToStringInjective(a, b);
  }

  /** The document `continueAsGuest` writes. `Math.random()` enters as two
      draws: `avatarDraw = floor(r * 12)` and `suffixDraw = floor(r * 9000)`. */
  function GuestDoc(avatarDraw: nat, suffixDraw: nat, createdAt: string): (d: UserDoc)
    requires avatarDraw < 12 && suffixDraw < 9000
    ensures d.isGuest == Some(true) && d.myList == Some([])
    ensures d.avatar.Some? && IsPresetAvatar(d.avatar.value)
    ensures d.name.Some? && exists n: nat :: 1000 <= n <= 9999 && d.name.value == "Guest " + NatToString(n)
    ensures d.phoneNumber == Some("") && d.surname == Some("")
    ensures d.createdAt == Some(createdAt)
  {
    UserDoc(Some(""), Some("Guest " + NatToString(1000 + suffixDraw)), Some(""),
      Some(PresetKey(avatarDraw + 1)), Some([]), Some(true), Some(createdAt))
  }

  /** Different suffix draws give different guest names. */
  lemma GuestNamesDistinct(a1: nat, s1: nat, a2: nat, s2: nat, t: string)
    requires a1 < 12 && s1 < 9000 && a2 < 12 && s2 < 9000
    requires GuestDoc(a1, s1, t).name == GuestDoc(a2, s2, t).name
    ensures s1 == s2
  {
    var x, y := NatToString(1000 + s1), NatToString(1000 + s2);
    assert "Guest " + x == "Guest " + y;
    assert x == ("Guest " + x)[6..];
    assert y == ("Guest " + y)[6..];
    NatToStringInjective(1000 + s1, 1000 + s2);
  }

  /** The stored document of `uid`, if the collection holds one. */
  function Stored(users: map<string, UserDoc>, uid: string): Option<UserDoc> {
    if uid in users then Some(users[uid]) else None
  }

  function StoredList(users: map<string, UserDoc>, uid: string): Option<seq<Movie>> {
    if uid in users then users[uid].myList else None
  }

  /** The `TypeError` `removeFromMyList` raises when the live copy has no `myList`. */
  const MISSING_LIST: SdkError := SdkError("TypeError", "userData.myList is undefined")

  /** The entry `removeFromMyList` passes to `arrayRemove`, from the live copy. */
  function RemovalTarget(userData: Option<UserDoc>, id: int): Option<Movie> {
    if userData.Some? && userData.value.myList.Some? then EntryWithId(userData.value.myList.value, id) else None
  }

  /** `AuthProvider`: its state and the Firestore `users` collection it writes. */
  class AuthProvider {
    /** The signed-in Firebase user's uid. */
    var user: Option<string>
    /** The last snapshot of the user's document. */
    var userData: Option<UserDoc>
    var loading: bool
    /** The Firestore `users` collection. */
    var users: map<string, UserDoc>

    constructor (stored: map<string, UserDoc>)
      ensures user.None? && userData.None? && loading && users == stored
    {
      user := None;
      userData := None;
      loading := true;
      users := stored;
    }

    /** `isInMyList(id)`. */
    function IsInMyList(id: int): (r: bool)
      reads this
      ensures r <==> (userData.Some? && userData.value.myList.Some? &&
        exists m :: m in userData.value.myList.value && m.id == id)
    {
      ListHasId(userData, id)
    }

    /** The `onAuthStateChanged` callback: a signed-out state settles at once;
        a signed-in one waits for the document snapshot. */
    method OnAuthStateChanged(current: Option<string>)
      modifies this`user, this`userData, this`loading
      ensures user == current
      ensures current.None? ==> userData.None? && !loading
      ensures current.Some? ==> userData == old(userData) && loading == old(loading)
    {
      user := current;
      if current.None? {
        userData := None;
        loading := false;
      }
    }

    /** The `onSnapshot` callback of the signed-in user's document. */
    method OnUserDocSnapshot()
      requires user.Some?
      modifies this`userData, this`loading
      ensures userData == Stored(users, user.value) && !loading
    {
      userData := Stored(users, user.value);
      loading := false;
    }

    /** `updateUserProfile(patch)`; `written` is the outcome of the `setDoc`
        write: a rejected write stores nothing and its error propagates. */
    method UpdateUserProfile(patch: UserDoc, written: Sdk<()>) returns (r: Sdk<()>)
      modifies this`users
      ensures user.None? ==> r == Done(()) && users == old(users)
      ensures user.Some? ==> r == written
      ensures user.Some? && written.Threw? ==> users == old(users)
      ensures user.Some? && written.Done? ==> users == old(users)[user.value := Merge(Stored(old(users), user.value), patch)]
    {
      r := Done(());
      if user.None? {
        return;
      }
      if written.Threw? {
        return written;
      }
      users := users[user.value := Merge(Stored(users, user.value), patch)];
      r := written;
    }

    /** `addToMyList(movie)`; `written` is the outcome of the `setDoc` write. */
    method AddToMyList(movie: Movie, written: Sdk<()>) returns (r: Sdk<()>)
      modifies this`users
      ensures user.None? ==> r == Done(()) && users == old(users)
      ensures user.Some? ==> r == written
      ensures user.Some? && written.Threw? ==> users == old(users)
      ensures user.Some? && written.Done? ==> users == old(users)[user.value :=
        Merge(Stored(old(users), user.value), NO_FIELDS.(myList := Some(ArrayUnion(StoredList(old(users), user.value), movie))))]
    {
      r := Done(());
      if user.None? {
        return;
      }
      if written.Threw? {
        return written;
      }
      var uid := user.value;
      users := users[uid := Merge(Stored(users, uid), NO_FIELDS.(myList := Some(ArrayUnion(StoredList(users, uid), movie))))];
      r := written;
    }

    /** `removeFromMyList(id)`. The entry is looked up in the live copy and
        removed by value from the stored document; `written` is the outcome
        of the `setDoc` write. A live copy without `myList` raises `MISSING_LIST`. */
    method RemoveFromMyList(id: int, written: Sdk<()>) returns (r: Sdk<()>)
      modifies this`users
      ensures user.None? || userData.None? ==> r == Done(()) && users == old(users)
      ensures user.Some? && userData.Some? && userData.value.myList.None? ==> r == Threw(MISSING_LIST) && users == old(users)
      ensures user.Some? && userData.Some? && userData.value.myList.Some? && RemovalTarget(userData, id).None? ==>
        r == Done(()) && users == old(users)
      ensures user.Some? && RemovalTarget(userData, id).Some? ==> r == written
      ensures user.Some? && RemovalTarget(userData, id).Some? && written.Threw? ==> users == old(users)
      ensures user.Some? && RemovalTarget(userData, id).Some? && written.Done? ==> users == old(users)[user.value :=
        Merge(Stored(old(users), user.value),
          NO_FIELDS.(myList := Some(ArrayRemove(StoredList(old(users), user.value), RemovalTarget(userData, id).value))))]
    {
      r := Done(());
      if user.None? || userData.None? {
        return;
      }
      if userData.value.myList.None? {
        return Threw(MISSING_LIST);
      }
      var target := EntryWithId(userData.value.myList.value, id);
      if target.None? {
        return;
      }
      if written.Threw? {
        return written;
      }
      var uid := user.value;
      users := users[uid := Merge(Stored(users, uid), NO_FIELDS.(myList := Some(ArrayRemove(StoredList(users, uid), target.value))))];
      r := written;
    }

    /** `signUp(phone, password)`; `created` is the outcome of creating the
        account (the new uid, or the error it threw) and `written` that of
        the `setDoc` of its document. */
    method SignUp(phone: string, password: string, created: Sdk<string>, written: Sdk<()>, now: string) returns (r: Sdk<()>)
      modifies this`users
      ensures CredentialsEmail(phone, password).Threw? ==> r == Threw(MISSING_CREDENTIALS) && users == old(users)
      ensures CredentialsEmail(phone, password).Done? && created.Threw? ==> r == Threw(created.error) && users == old(users)
      ensures CredentialsEmail(phone, password).Done? && created.Done? ==> r == written
      ensures CredentialsEmail(phone, password).Done? && created.Done? && written.Threw? ==> users == old(users)
      ensures CredentialsEmail(phone, password).Done? && created.Done? && written.Done? ==>
        users == old(users)[created.value := SignUpDoc(phone, now)]
    {
      var check := CredentialsEmail(phone, password);
      if check.Threw? {
        return Threw(check.error);
      }
      if created.Threw? {
        return Threw(created.error);
      }
      if written.Threw? {
        return written;
      }
      users := users[created.value := SignUpDoc(phone, now)];
      r := written;
    }

    /** `continueAsGuest()`; `anonymous` is the outcome of the anonymous
        sign-in and `written` that of the `setDoc` of the guest document. */
    method ContinueAsGuest(anonymous: Sdk<string>, written: Sdk<()>, avatarDraw: nat, suffixDraw: nat, now: string) returns (r: Sdk<()>)
      requires avatarDraw < 12 && suffixDraw < 9000
      modifies this`users
      ensures anonymous.Threw? ==> r == Threw(anonymous.error) && users == old(users)
      ensures anonymous.Done? ==> r == written
      ensures anonymous.Done? && written.Threw? ==> users == old(users)
      ensures anonymous.Done? && written.Done? ==> users == old(users)[anonymous.value := GuestDoc(avatarDraw, suffixDraw, now)]
    {
      if anonymous.Threw? {
        return Threw(anonymous.error);
      }
      if written.Threw? {
        return written;
      }
      users := users[anonymous.value := GuestDoc(avatarDraw, suffixDraw, now)];
      r := written;
    }
  }
}
