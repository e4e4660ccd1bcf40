/**
 * The profile editor (profilepage/page.tsx): a saved profile, a draft
 * that the form edits, the field validation map, the dirty test, and the
 * edit / save / cancel / update handlers; plus the avatar initials, the
 * role caption and the avatar file guards.
 */
module ProfileEditing {
  import opened Optional
  import opened Text

  datatype Profile = Profile(
    fullName: string,
    email: string,
    institution: string,
    department: string,
    researchDomain: string,
    country: string,
    city: string,
    biography: string,
    role: string,
    avatarDataUrl: Option<string>)

  datatype FieldKey =
    | FullName | Email | Institution | Department | ResearchDomain
    | Country | City | Biography | Role | AvatarDataUrl

  const InitialProfile: Profile := Profile(
    "Hamza Mouheb Abdelhak", "mouhebkanye808s@gmail.com", "Constantine 2 University",
    "Computer Science", "Music type shit", "Algeria", "Constantine", "type shyt", "student", None)

  /** `p[k] ?? ""`. */
  function Get(p: Profile, k: FieldKey): string {
    match k
    case FullName => p.fullName
    case Email => p.email
    case Institution => p.institution
    case Department => p.department
    case ResearchDomain => p.researchDomain
    case Country => p.country
    case City => p.city
    case Biography => p.biography
    case Role => p.role
    case AvatarDataUrl => p.avatarDataUrl.GetOr("")
  }

  /** `{ ...p, [k]: v }`. */
  function Set(p: Profile, k: FieldKey, v: string): (r: Profile)
    ensures Get(r, k) == v
    ensures forall k' | k' != k :: Get(r, k') == Get(p, k')
    ensures k == AvatarDataUrl ==> r.avatarDataUrl == Some(v)
    ensures k != AvatarDataUrl ==> r.avatarDataUrl == p.avatarDataUrl
  {
    match k
    case FullName => p.(fullName := v)
    case Email => p.(email := v)
    case Institution => p.(institution := v)
    case Department => p.(department := v)
    case ResearchDomain => p.(researchDomain := v)
    case Country => p.(country := v)
    case City => p.(city := v)
    case Biography => p.(biography := v)
    case Role => p.(role := v)
    case AvatarDataUrl => p.(avatarDataUrl := Some(v))
  }

  /* ---------- initials ---------- */

  /** The length of the run of non-whitespace characters that `t` starts with. */
  function RunLength(t: string): (n: nat)
    ensures n <= |t|
    ensures forall i | 0 <= i < n :: !IsWhitespace(t[i])
    ensures n == |t| || IsWhitespace(t[n])
  {
    if t == [] || IsWhitespace(t[0]) then 0 else 1 + RunLength(t[1..])
  }

  /** `s.trim().split(/\s+/).filter(Boolean)`: the maximal runs of non-whitespace, in order. */
  function Words(s: string): (ws: seq<string>)
    ensures forall i | 0 <= i < |ws| :: ws[i] != "" && NoWhitespace(ws[i])
    decreases |s|
  {
    if s == [] then []
    else if IsWhitespace(s[0]) then Words(s[1..])
    else
      var n := RunLength(s);
      [s[..n]] + Words(s[n..])
  }

  predicate NoWhitespace(s: string) {
    forall i | 0 <= i < |s| :: !IsWhitespace(s[i])
  }

  /** The non-whitespace characters of `s`, in order. */
  function Ink(s: string): string {
    if s == [] then [] else (if IsWhitespace(s[0]) then [] else [s[0]]) + Ink(s[1..])
  }

  function Concat(ws: seq<string>): string {
    if ws == [] then [] else ws[0] + Concat(ws[1..])
  }

  lemma {:induction false} InkAppend(a: string, b: string)
    ensures Ink(a + b) == Ink(a) + Ink(b)
  {
    if a == [] {
      assert a + b == b;
    } else {
      assert (a + b)[0] == a[0] && (a + b)[1..] == a[1..] + b;
      InkAppend(a[1..], b);
    }
  }

  lemma {:induction false} InkOfBlank(s: string)
    requires AllWhitespace(s)
    ensures Ink(s) == []
  {
    if s != [] {
      InkOfBlank(s[1..]);
    }
  }

  lemma {:induction false} InkOfSolid(s: string)
    requires NoWhitespace(s)
    ensures Ink(s) == s
  {
    if s != [] {
      InkOfSolid(s[1..]);
      assert s == [s[0]] + s[1..];
    }
  }

  /** The words, run together, are exactly the non-whitespace characters of the name: nothing is lost, nothing added. */
  lemma {:induction false} WordsKeepInk(s: string)
    ensures Concat(Words(s)) == Ink(s)
    decreases |s|
  {
    if s != [] {
      if IsWhitespace(s[0]) {
        WordsKeepInk(s[1..]);
      } else {
        var n := RunLength(s);
        assert s == s[..n] + s[n..];
        InkAppend(s[..n], s[n..]);
        InkOfSolid(s[..n]);
        WordsKeepInk(s[n..]);
        assert Words(s)[0] == s[..n] && Words(s)[1..] == Words(s[n..]);
      }
    }
  }

  /** A name has no words exactly when it is blank. */
  lemma {:induction false} WordsEmptyIffBlank(s: string)
    ensures Words(s) == [] <==> AllWhitespace(s)
    decreases |s|
  {
    if s != [] && IsWhitespace(s[0]) {
      WordsEmptyIffBlank(s[1..]);
      if AllWhitespace(s[1..]) {
        forall i | 0 <= i < |s| ensures IsWhitespace(s[i]) {
          if i > 0 { assert s[i] == s[1..][i - 1]; }
        }
      }
    }
  }

  /** `w` stands in `s` at `a` as a whole word: no whitespace in it, whitespace or an end of `s` on each side. */
  predicate WordAt(s: string, w: string, a: nat) {
    && w != [] && NoWhitespace(w)
    && a + |w| <= |s| && s[a..a + |w|] == w
    && (a == 0 || IsWhitespace(s[a - 1]))
    && (a + |w| == |s| || IsWhitespace(s[a + |w|]))
  }

  function Shift(ps: seq<nat>, d: nat): (r: seq<nat>)
    ensures |r| == |ps|
    ensures forall k | 0 <= k < |ps| :: r[k] == ps[k] + d
  {
    seq(|ps|, k requires 0 <= k < |ps| => ps[k] + d)
  }

  /** Where each of `Words(s)` starts in `s`. */
  function WordStarts(s: string): seq<nat>
    decreases |s|
  {
    if s == [] then []
    else if IsWhitespace(s[0]) then Shift(WordStarts(s[1..]), 1)
    else
      var n := RunLength(s);
      [0] + Shift(WordStarts(s[n..]), n)
  }

  /** A whole word of a suffix `s[d..]` is a whole word of `s`, unless it opens the suffix right after ink. */
  lemma WordAtShift(s: string, d: nat, w: string, a: nat)
    requires d <= |s| && WordAt(s[d..], w, a)
    requires a == 0 && d > 0 ==> IsWhitespace(s[d - 1])
    ensures WordAt(s, w, a + d)
  {
    assert s[a + d..a + d + |w|] == s[d..][a..a + |w|];
    if a > 0 {
      assert s[a + d - 1] == s[d..][a - 1];
    }
    if a + d + |w| < |s| {
      assert s[a + d + |w|] == s[d..][a + |w|];
    }
  }

  /** `ws` stand in `s` as whole words at the positions `ps`, in order and apart from each other. */
  predicate Runs(s: string, ws: seq<string>, ps: seq<nat>) {
    && |ps| == |ws|
    && (forall k | 0 <= k < |ws| :: WordAt(s, ws[k], ps[k]))
    && (forall k | 0 < k < |ws| :: ps[k - 1] + |ws[k - 1]| < ps[k])
  }

  /** Whole words of a suffix `s[d..]` are whole words of `s`, unless the first opens the suffix right after ink. */
  lemma RunsShift(s: string, d: nat, ws: seq<string>, ps: seq<nat>)
    requires d <= |s| && Runs(s[d..], ws, ps)
    requires d > 0 && ps != [] && ps[0] == 0 ==> IsWhitespace(s[d - 1])
    ensures Runs(s, ws, Shift(ps, d))
  {
    forall k | 0 <= k < |ws| ensures WordAt(s, ws[k], ps[k] + d) {
      if k > 0 {
        assert ps[k - 1] < ps[k];
      }
      WordAtShift(s, d, ws[k], ps[k]);
    }
  }

  /** A first word at position 0, followed by whole words after it. */
  lemma RunsCons(s: string, w: string, ws: seq<string>, ps: seq<nat>)
    requires WordAt(s, w, 0) && Runs(s, ws, ps)
    requires ps != [] ==> |w| < ps[0]
    ensures Runs(s, [w] + ws, [0] + ps)
  {
  }

  /**
   * The words are the maximal runs of non-whitespace of `s`: each stands
   * in `s` with whitespace or an end on both sides, and they come in
   * order, apart from each other.
   */
  lemma {:induction false} WordsAreMaximalRuns(s: string)
    ensures Runs(s, Words(s), WordStarts(s))
    decreases |s|
  {
    if s != [] {
      if IsWhitespace(s[0]) {
        WordsAreMaximalRuns(s[1..]);
        RunsShift(s, 1, Words(s[1..]), WordStarts(s[1..]));
      } else {
        var n := RunLength(s);
        var t := s[n..];
        var ws, ps := Words(t), WordStarts(t);
        WordsAreMaximalRuns(t);
        if ps != [] {
          assert t[ps[0]] == ws[0][0];
        }
        RunsShift(s, n, ws, ps);
        assert WordAt(s, s[..n], 0);
        RunsCons(s, s[..n], ws, Shift(ps, n));
      }
    }
  }

  /** `getInitials(name)`. */
  function Initials(name: string): string {
    InitialsOf(Words(name))
  }

  /** The initials of a list of words, as `getInitials` forms them. */
  function InitialsOf(parts: seq<string>): string
    requires forall i | 0 <= i < |parts| :: parts[i] != ""
  {
    if |parts| == 0 then "??"
    else
      var first := [parts[0][0]];
      var last := if |parts| > 1 then [parts[|parts| - 1][0]] else "";
      ToUpper(first + last)
  }

  /** A blank name shows "??". */
  lemma InitialsOfBlank(name: string)
    requires AllWhitespace(name)
    ensures Initials(name) == "??"
  {
    WordsEmptyIffBlank(name);
  }

  /**
   * One word shows the upper-cased first letter of the word; more words
   * show the upper-cased first letters of the first and the last word;
   * none of these letters is whitespace.
   */
  lemma InitialsOfWords(parts: seq<string>)
    requires forall i | 0 <= i < |parts| :: parts[i] != "" && NoWhitespace(parts[i])
    ensures |parts| == 1 ==> InitialsOf(parts) == [UpperChar(parts[0][0])]
    ensures |parts| > 1 ==> InitialsOf(parts) == [UpperChar(parts[0][0]), UpperChar(parts[|parts| - 1][0])]
    ensures |parts| >= 1 ==> NoWhitespace(InitialsOf(parts))
  {
    if |parts| >= 1 {
      var a := parts[0][0];
      var z := parts[|parts| - 1][0];
      UpperKeepsInk(a);
      UpperKeepsInk(z);
      if |parts| == 1 {
        assert InitialsOf(parts) == ToUpper([a]);
      } else {
        assert InitialsOf(parts) == ToUpper([a] + [z]);
      }
    }
  }

  /**
   * `getInitials` read off the name itself: the upper-cased first
   * character of the first word, and for a name of several words that of
   * the last word, the words being the maximal runs `WordStarts` locates.
   */
  lemma InitialsOfName(name: string)
    requires !AllWhitespace(name)
    ensures var ps := WordStarts(name);
      && 1 <= |ps| && (forall k | 0 <= k < |ps| :: ps[k] < |name| && !IsWhitespace(name[ps[k]]))
      && (|ps| == 1 ==> Initials(name) == [UpperChar(name[ps[0]])])
      && (|ps| > 1 ==> Initials(name) == [UpperChar(name[ps[0]]), UpperChar(name[ps[|ps| - 1]])])
  {
    var ws, ps := Words(name), WordStarts(name);
    WordsEmptyIffBlank(name);
    WordsAreMaximalRuns(name);
    InitialsOfWords(ws);
    forall k | 0 <= k < |ps| ensures ps[k] < |name| && name[ps[k]] == ws[k][0] {
      assert name[ps[k]..ps[k] + |ws[k]|][0] == ws[k][0];
    }
  }

  /** Upper-casing never turns a visible character into whitespace. */
  lemma UpperKeepsInk(c: char)
    requires !IsWhitespace(c)
    ensures !IsWhitespace(UpperChar(c))
  {
  }

  /* ---------- validation ---------- */

  /** `isValidEmail(email)`: the trimmed text matches `local@domain.tld`. */
  predicate IsValidEmail(email: string) {
    MatchesEmailPattern(Trim(email))
  }

  /** `if (!v.trim()) e[k] = message`: the message exactly when the value is blank. */
  function BlankError(v: string, message: string): (r: Option<string>)
    ensures r.Some? <==> AllWhitespace(v)
    ensures r.Some? ==> r.value == message
  {
    TrimEmptyIffBlank(v);
    if Trim(v) == "" then Some(message) else None
  }

  /** The check `errors` runs on one field: the message it records for that field, if any. */
  function FieldError(d: Profile, k: FieldKey): Option<string> {
    match k
    case FullName => BlankError(d.fullName, "Full name is required.")
    case Email =>
      if Trim(d.email) == "" then Some("Email is required.")
      else if !IsValidEmail(d.email) then Some("Please enter a valid email.")
      else None
    case Institution => BlankError(d.institution, "Institution is required.")
    case Department => BlankError(d.department, "Department is required.")
    case Country => BlankError(d.country, "Country is required.")
    case City => BlankError(d.city, "City is required.")
    case Biography => if |Trim(d.biography)| > 500 then Some("Max 500 characters.") else None
    case _ => None
  }

  const AllKeys: set<FieldKey> :=
    {FullName, Email, Institution, Department, ResearchDomain, Country, City, Biography, Role, AvatarDataUrl}

  /** `errors`: the message of each field whose check fails. */
  function Errors(d: Profile): map<FieldKey, string> {
    map k | k in AllKeys && FieldError(d, k).Some? :: FieldError(d, k).value
  }

  /** The required text fields. */
  const Required: set<FieldKey> := {FullName, Email, Institution, Department, Country, City}

  /**
   * When a field fails, independently of how `errors` is written: a
   * required field that is blank, an e-mail that does not match the
   * pattern once trimmed, a biography over 500 characters once trimmed.
   */
  predicate Fails(d: Profile, k: FieldKey) {
    || (k in Required && AllWhitespace(Get(d, k)))
    || (k == Email && !IsValidEmail(d.email))
    || (k == Biography && |Trim(d.biography)| > 500)
  }

  /**
   * A field has an error exactly when it fails; the e-mail's message says
   * "required" when it is blank and asks for a valid address otherwise, so
   * its format is looked at only when it is not blank.
   */
  lemma ErrorsSpec(d: Profile, k: FieldKey)
    ensures k in Errors(d) <==> Fails(d, k)
    ensures Email in Errors(d) ==>
      Errors(d)[Email] == if AllWhitespace(d.email) then "Email is required." else "Please enter a valid email."
  {
    assert k in AllKeys && Email in AllKeys;
    FieldErrorSpec(d, k);
    FieldErrorSpec(d, Email);
  }

  lemma FieldErrorSpec(d: Profile, k: FieldKey)
    ensures FieldError(d, k).Some? <==> Fails(d, k)
    ensures k == Email && FieldError(d, k).Some? ==>
      FieldError(d, k).value == if AllWhitespace(d.email) then "Email is required." else "Please enter a valid email."
  {
    if k == Email {
      EmailError(d);
    } else {
      OtherFieldError(d, k);
    }
  }

  lemma EmailError(d: Profile)
    ensures FieldError(d, Email).Some? <==> AllWhitespace(d.email) || !IsValidEmail(d.email)
    ensures FieldError(d, Email).Some? ==>
      FieldError(d, Email).value == if AllWhitespace(d.email) then "Email is required." else "Please enter a valid email."
  {
    TrimEmptyIffBlank(d.email);
  }

  lemma OtherFieldError(d: Profile, k: FieldKey)
    requires k != Email
    ensures FieldError(d, k).Some? <==> (k in Required && AllWhitespace(Get(d, k))) || (k == Biography && |Trim(d.biography)| > 500)
  {
  }

  /** With no errors the profile has a well-formed e-mail and every required field is filled. */
  lemma NoErrorsMeansComplete(d: Profile)
    requires Errors(d) == map[]
    ensures IsValidEmail(d.email)
    ensures forall k | k in Required :: !AllWhitespace(Get(d, k))
  {
    forall k | k in Required ensures !AllWhitespace(Get(d, k)) {
      ErrorsSpec(d, k);
    }
    ErrorsSpec(d, Email);
  }

  /* ---------- comparing profiles ---------- */

  /** `shallowEqualProfile(a, b)`: every field agrees, a missing avatar counting as "". */
  predicate ShallowEqual(a: Profile, b: Profile) {
    forall k :: Get(a, k) == Get(b, k)
  }

  /** The profile with an empty avatar written as missing. */
  function Normal(p: Profile): Profile {
    if p.avatarDataUrl == Some("") then p.(avatarDataUrl := None) else p
  }

  /**
   * The comparison is an equivalence, and it identifies exactly the
   * profiles that are equal once an empty avatar is read as no avatar.
   */
  lemma ShallowEqualSpec(a: Profile, b: Profile, c: Profile)
    ensures ShallowEqual(a, a)
    ensures ShallowEqual(a, b) ==> ShallowEqual(b, a)
    ensures ShallowEqual(a, b) && ShallowEqual(b, c) ==> ShallowEqual(a, c)
    ensures ShallowEqual(a, b) <==> Normal(a) == Normal(b)
  {
    if ShallowEqual(a, b) {
      assert Get(a, FullName) == Get(b, FullName) && Get(a, Email) == Get(b, Email);
      assert Get(a, Institution) == Get(b, Institution) && Get(a, Department) == Get(b, Department);
      assert Get(a, ResearchDomain) == Get(b, ResearchDomain) && Get(a, Country) == Get(b, Country);
      assert Get(a, City) == Get(b, City) && Get(a, Biography) == Get(b, Biography);
      assert Get(a, Role) == Get(b, Role) && Get(a, AvatarDataUrl) == Get(b, AvatarDataUrl);
    }
    if Normal(a) == Normal(b) {
      forall k ensures Get(a, k) == Get(b, k) {
        assert Get(a, k) == Get(Normal(a), k);
        assert Get(b, k) == Get(Normal(b), k);
      }
    }
  }

  /** `canSave`: editing, something changed, and no field has an error. */
  predicate CanSave(isEditing: bool, saved: Profile, draft: Profile) {
    isEditing && !ShallowEqual(saved, draft) && Errors(draft) == map[]
  }

  /** `saved.role?.trim() ? saved.role.trim() : "user"`. */
  function RoleLabel(role: string): (r: string)
    ensures r != ""
    ensures AllWhitespace(role) ==> r == "user"
    ensures !AllWhitespace(role) ==> r == Trim(role)
  {
    TrimEmptyIffBlank(role);
    if Trim(role) != "" then Trim(role) else "user"
  }

  /* ---------- avatar file guards ---------- */

  datatype PickedFile = PickedFile(mimeType: string, size: int)

  datatype AvatarVerdict = NoFile | Rejected(message: string) | ReadAsDataUrl

  const MaxAvatarBytes: int := 2 * 1024 * 1024

  /** `onAvatarFile(file)` up to starting the `FileReader`. */
  function AvatarCheck(file: Option<PickedFile>): (v: AvatarVerdict)
    ensures v.ReadAsDataUrl? <==>
      file.Some? && |file.value.mimeType| >= 6 && file.value.mimeType[..6] == "image/" && file.value.size <= MaxAvatarBytes
    ensures v == NoFile <==> file.None?
    ensures v.Rejected? ==> v.message in {"Please select an image file.", "Image is too large. Please use a file under 2MB."}
  {
    match file
    case None => NoFile
    case Some(f) =>
      if !(|f.mimeType| >= 6 && f.mimeType[..6] == "image/") then Rejected("Please select an image file.")
      else if f.size > MaxAvatarBytes then Rejected("Image is too large. Please use a file under 2MB.")
      else ReadAsDataUrl
  }

  /* ---------- the page state ---------- */

  datatype SaveStatus = Idle | Saved | Failed

  class ProfileEditor {
    var isEditing: bool
    var saved: Profile
    var draft: Profile
    var status: SaveStatus

    /** Out of edit mode the draft is the saved profile. */
    ghost predicate Settled()
      reads this
    {
      !isEditing ==> draft == saved
    }

    /** `dirty`. */
    predicate Dirty()
      reads this
    {
      !ShallowEqual(saved, draft)
    }

    constructor ()
      ensures Settled() && !isEditing
      ensures saved == InitialProfile && draft == InitialProfile && status == Idle
    {
      isEditing := false;
      saved := InitialProfile;
      draft := InitialProfile;
      status := Idle;
    }

    /** `handleEdit`: edit mode on a fresh copy of the saved profile. */
    method HandleEdit()
      modifies this
      ensures Settled() && isEditing
      ensures draft == saved && saved == old(saved) && status == Idle
    {
      draft := saved;
      isEditing := true;
      status := Idle;
    }

    /** `handleSave`: nothing unless saving is allowed; then the draft becomes the saved profile and edit mode ends. */
    method HandleSave()
      requires Settled()
      modifies this
      ensures Settled()
      ensures !CanSave(old(isEditing), old(saved), old(draft)) ==>
        isEditing == old(isEditing) && saved == old(saved) && draft == old(draft) && status == old(status)
      ensures CanSave(old(isEditing), old(saved), old(draft)) ==>
        saved == old(draft) && draft == old(draft) && !isEditing && status == Saved
    {
      if !CanSave(isEditing, saved, draft) {
        return;
      }
      saved := draft;
      isEditing := false;
      status := Saved;
    }

    /**
     * `handleCancel`: with unsaved changes the user is asked first, and a
     * refusal changes nothing; otherwise the draft is reset to the saved
     * profile and edit mode ends.
     */
    method HandleCancel(confirmed: bool)
      requires Settled()
      modifies this
      ensures Settled()
      ensures old(Dirty()) && !confirmed ==>
        isEditing == old(isEditing) && saved == old(saved) && draft == old(draft) && status == old(status)
      ensures !old(Dirty()) || confirmed ==>
        draft == old(saved) && saved == old(saved) && !isEditing && status == Idle
    {
      if Dirty() {
        var ok := confirmed;
        if !ok {
          return;
        }
      }
      draft := saved;
      isEditing := false;
      status := Idle;
    }

    /**
     * `updateField(field, value)`: only the named field of the draft
     * changes. The form's inputs are disabled out of edit mode, so in
     * practice it runs while editing, where the draft may differ freely.
     */
    method UpdateField(field: FieldKey, value: string)
      modifies this`draft, this`status
      ensures draft == Set(old(draft), field, value)
      ensures Get(draft, field) == value
      ensures forall k | k != field :: Get(draft, k) == Get(old(draft), k)
      ensures status == Idle
      ensures isEditing ==> Settled()
    {
      draft := Set(draft, field, value);
      status := Idle;
    }
  }

  /** Out of edit mode nothing is dirty and nothing can be saved. */
  lemma SettledNotDirty(isEditing: bool, saved: Profile, draft: Profile)
    requires !isEditing ==> draft == saved
    ensures !isEditing ==> ShallowEqual(saved, draft) && !CanSave(isEditing, saved, draft)
  {
    if !isEditing {
      ShallowEqualSpec(saved, saved, saved);
    }
  }

  /** Updating a field to the value it already has (avatar aside) leaves the draft as clean as it was. */
  lemma UpdateSameValueKeepsEquality(draft: Profile, k: FieldKey)
    ensures ShallowEqual(Set(draft, k, Get(draft, k)), draft)
  {
  }
}
