/** The React profile screen (react-app/src/components/Profile.jsx): the
    first and last name taken from the display name, the avatar initials, and
    the per-field edit flags and form values kept in component state.

    React state is a value that each handler replaces by an updated copy, so
    the component state is a datatype and each handler a function from the
    old state to the new one. */
module ProfileView {
  import opened Wrappers
  import Text

  /** `currentUser`, with the fields the screen reads. */
  datatype User = User(displayName: Option<string>, email: Option<string>, phoneNumber: Option<string>, bio: Option<string>)

  /** `displayName?.split(' ')[0] || ''`. */
  function FirstName(displayName: Option<string>): (r: string)
    ensures displayName.None? ==> r == ""
    ensures displayName.Some? ==>
      var d := displayName.value;
      r <= d && ' ' !in r && (|r| < |d| ==> d[|r|] == ' ')
  {
    match displayName
    case None => ""
    case Some(d) =>
      Text.SplitHead(d, ' ');
      Text.Split(d, ' ')[0]
  }

  /** `displayName?.split(' ')[1] || ''`: the token after the first space,
      which is the first name of what follows that space. */
  function LastName(displayName: Option<string>): (r: string)
    ensures displayName.None? ==> r == ""
    ensures displayName.Some? && ' ' !in displayName.value ==> r == ""
    ensures displayName.Some? && ' ' in displayName.value ==>
      var d := displayName.value;
      var f := FirstName(displayName);
      |f| < |d| && r == FirstName(Some(d[|f| + 1..]))
  {
    match displayName
    case None => ""
    case Some(d) =>
      var parts := Text.Split(d, ' ');
      if ' ' !in d then
        Text.SplitNoSeparator(d, ' ');
        ""
      else
        var f := parts[0];
        Text.SplitHead(d, ' ');
        assert |f| < |d| by {
          if |f| == |d| {
            assert f == d;
          }
        }
        var t := d[|f| + 1..];
        assert d == f + [' '] + t;
        Text.SplitFirstPiece(f, ' ', t);
        parts[1]
  }

  /** The first two space-separated words of a display name are the first
      and last name, whatever words follow them. */
  lemma NamesOfWords(words: seq<string>)
    requires |words| >= 2
    requires forall i :: 0 <= i < |words| ==> ' ' !in words[i]
    ensures FirstName(Some(Text.Join(words, " "))) == words[0]
    ensures LastName(Some(Text.Join(words, " "))) == words[1]
  {
    Text.SplitJoin(words, ' ');
  }

  /** `names.map(n => n[0]).join('')`: the first character of each token, an
      empty token contributing nothing. A reference definition: its own
      contract is only the length bound, and `HeadsOfSplit` pins its value on
      split names to the independent scan `WordInitials`. */
  function Heads(tokens: seq<string>): (r: string)
    ensures |r| <= |tokens|
  {
    if tokens == [] then ""
    else (if tokens[0] == "" then "" else [tokens[0][0]]) + Heads(tokens[1..])
  }

  /** The heads of non-empty tokens are their first characters, in order. */
  lemma {:induction false} HeadsOfWords(tokens: seq<string>)
    requires forall i :: 0 <= i < |tokens| ==> tokens[i] != ""
    ensures Heads(tokens) == seq(|tokens|, i requires 0 <= i < |tokens| => tokens[i][0])
  {
    if tokens != [] {
      HeadsOfWords(tokens[1..]);
    }
  }

  /** The heads are empty exactly when every token is. */
  lemma {:induction false} HeadsEmpty(tokens: seq<string>)
    ensures Heads(tokens) == "" <==> forall i :: 0 <= i < |tokens| ==> tokens[i] == ""
  {
    if tokens != [] {
      HeadsEmpty(tokens[1..]);
      assert forall i :: 1 <= i < |tokens| ==> tokens[i] == tokens[1..][i - 1];
    }
  }

  /** The first character of every word of `s`, in order, scanning left to
      right: a word starts at each non-space character that begins `s` (when
      `afterSpace`) or follows a space. */
  function WordInitials(s: string, afterSpace: bool): string
    decreases |s|
  {
    if s == [] then ""
    else if s[0] == ' ' then WordInitials(s[1..], true)
    else (if afterSpace then [s[0]] else "") + WordInitials(s[1..], false)
  }

  /** Taking the head of every piece of `split(' ')` picks exactly the word
      starts; the pieces after the first pick the word starts that follow a
      space. */
  lemma {:induction false} HeadsOfSplit(s: string)
    ensures Heads(Text.Split(s, ' ')) == WordInitials(s, true)
    ensures Heads(Text.Split(s, ' ')[1..]) == WordInitials(s, false)
    decreases |s|
  {
    if s != [] {
      HeadsOfSplit(s[1..]);
      var rest := Text.Split(s[1..], ' ');
      if s[0] == ' ' {
        assert Text.Split(s, ' ') == [""] + rest;
        assert ([""] + rest)[1..] == rest;
      } else {
        var parts := [[s[0]] + rest[0]] + rest[1..];
        assert Text.Split(s, ' ') == parts;
        assert parts[1..] == rest[1..];
        assert Heads(rest) == (if rest[0] == "" then "" else [rest[0][0]]) + Heads(rest[1..]);
      }
    }
  }

  /** `currentUser?.displayName` is truthy. */
  predicate HasName(user: Option<User>) {
    user.Some? && user.value.displayName.Some? && user.value.displayName.value != ""
  }

  /** getInitials: with a display name, the upper-cased first characters of
      its space-separated tokens; otherwise the upper-cased first character of
      the email; failing that, "U". */
  function Initials(user: Option<User>): (r: string)
    ensures forall k :: 0 <= k < |r| ==> !Text.IsLower(r[k])
    ensures HasName(user) ==>
      var d := user.value.displayName.value;
      && r == Text.Upper(WordInitials(d, true))
      && (r == "" <==> forall k :: 0 <= k < |d| ==> d[k] == ' ')
    ensures !HasName(user) && user.Some? && user.value.email.Some? && user.value.email.value != "" ==>
      r == [Text.UpperChar(user.value.email.value[0])]
    ensures !HasName(user) && !(user.Some? && user.value.email.Some? && user.value.email.value != "") ==>
      r == "U"
  {
    if HasName(user) then
      var d := user.value.displayName.value;
      var tokens := Text.Split(d, ' ');
      HeadsEmpty(tokens);
      HeadsOfSplit(d);
      Text.JoinOnlySeparators(tokens, ' ');
      Text.Upper(Heads(tokens))
    else if user.Some? && user.value.email.Some? && user.value.email.value != "" then
      Text.Upper([user.value.email.value[0]])
    else
      "U"
  }

  /** For a display name made of non-empty words separated by single
      spaces, the initials are the upper-cased first letters of the words. */
  lemma InitialsOfWords(u: User, words: seq<string>)
    requires |words| >= 1
    requires forall i :: 0 <= i < |words| ==> words[i] != "" && ' ' !in words[i]
    requires u.displayName == Some(Text.Join(words, " "))
    ensures Initials(Some(u)) == Text.Upper(seq(|words|, i requires 0 <= i < |words| => words[i][0]))
  {
    Text.SplitJoin(words, ' ');
    HeadsOfWords(words);
    if |words| > 1 {
      assert Text.Join(words, " ") == words[0] + " " + Text.Join(words[1..], " ");
    }
  }

  /** The five fields of the form. */
  const Fields := {"firstName", "lastName", "email", "phone", "bio"}

  /** The form as filled in from the user: `currentUser.x || ''` for each field. */
  function UserData(u: User): (m: map<string, string>)
    ensures m.Keys == Fields
    ensures m["firstName"] == FirstName(u.displayName) && m["lastName"] == LastName(u.displayName)
    ensures m["email"] == u.email.GetOr("") && m["phone"] == u.phoneNumber.GetOr("") && m["bio"] == u.bio.GetOr("")
  {
    map["firstName" := FirstName(u.displayName), "lastName" := LastName(u.displayName),
        "email" := u.email.GetOr(""), "phone" := u.phoneNumber.GetOr(""), "bio" := u.bio.GetOr("")]
  }

  /** The value `handleCancel` restores for a field; `None` for a field it
      does not recognise. */
  function Restored(u: User, field: string): (r: Option<string>)
    ensures r.Some? <==> field in Fields
    ensures r.Some? ==> r.value == UserData(u)[field]
  {
    if field == "firstName" then Some(FirstName(u.displayName))
    else if field == "lastName" then Some(LastName(u.displayName))
    else if field == "email" then Some(u.email.GetOr(""))
    else if field == "phone" then Some(u.phoneNumber.GetOr(""))
    else if field == "bio" then Some(u.bio.GetOr(""))
    else None
  }

  /** The component state: which fields are being edited, and the form values. */
  datatype ProfileState = ProfileState(isEditing: map<string, bool>, profileData: map<string, string>)

  /** The state on first render: nothing edited, every field empty. */
  function Initial(): (s: ProfileState)
    ensures s.isEditing == map[]
    ensures s.profileData.Keys == Fields && forall f :: f in Fields ==> s.profileData[f] == ""
  {
    ProfileState(map[], map f | f in Fields :: "")
  }

  /** The effect run when `currentUser` changes: with a user the form is
      refilled from it; the edit flags are kept. */
  function Loaded(s: ProfileState, user: Option<User>): (r: ProfileState)
    ensures r.isEditing == s.isEditing
    ensures user.None? ==> r.profileData == s.profileData
    ensures user.Some? ==> r.profileData == UserData(user.value)
  {
    match user
    case None => s
    case Some(u) => ProfileState(s.isEditing, UserData(u))
  }

  /** The edit flag of `field` becomes `on`; every other flag is kept. */
  function SetFlag(flags: map<string, bool>, field: string, on: bool): (r: map<string, bool>)
    ensures r.Keys == flags.Keys + {field}
    ensures r[field] == on
    ensures forall f :: f in flags && f != field ==> r[f] == flags[f]
  {
    flags[field := on]
  }

  /** handleEdit: only the named field enters edit mode; the form is untouched. */
  function HandleEdit(s: ProfileState, field: string): (r: ProfileState)
    ensures r.isEditing.Keys == s.isEditing.Keys + {field} && r.isEditing[field]
    ensures forall f :: f in s.isEditing && f != field ==> r.isEditing[f] == s.isEditing[f]
    ensures r.profileData == s.profileData
  {
    ProfileState(SetFlag(s.isEditing, field, true), s.profileData)
  }

  /** What `handleSave` does: the new state, and the form values handed to
      `updateUserProfile` when the context provides it. */
  datatype SaveStep = SaveStep(state: ProfileState, sent: Option<map<string, string>>)

  /** handleSave: only the named field leaves edit mode, and the whole form
      is handed on for saving when an update function exists. */
  function HandleSave(s: ProfileState, field: string, canUpdate: bool): (r: SaveStep)
    ensures r.state.isEditing.Keys == s.isEditing.Keys + {field} && !r.state.isEditing[field]
    ensures forall f :: f in s.isEditing && f != field ==> r.state.isEditing[f] == s.isEditing[f]
    ensures r.state.profileData == s.profileData
    ensures r.sent.Some? <==> canUpdate
    ensures r.sent.Some? ==> r.sent.value == s.profileData
  {
    SaveStep(ProfileState(SetFlag(s.isEditing, field, false), s.profileData),
             if canUpdate then Some(s.profileData) else None)
  }

  /** handleCancel: only the named field leaves edit mode; with a user, a
      recognised field gets back the user's value and nothing else in the
      form changes. */
  function HandleCancel(s: ProfileState, field: string, user: Option<User>): (r: ProfileState)
    ensures r.isEditing.Keys == s.isEditing.Keys + {field} && !r.isEditing[field]
    ensures forall f :: f in s.isEditing && f != field ==> r.isEditing[f] == s.isEditing[f]
    ensures user.None? || field !in Fields ==> r.profileData == s.profileData
    ensures user.Some? && field in Fields ==>
      && r.profileData.Keys == s.profileData.Keys + {field}
      && r.profileData[field] == UserData(user.value)[field]
      && forall f :: f in s.profileData && f != field ==> r.profileData[f] == s.profileData[f]
  {
    var flags := SetFlag(s.isEditing, field, false);
    match user
    case None => ProfileState(flags, s.profileData)
    case Some(u) =>
      match Restored(u, field)
      case Some(v) => ProfileState(flags, s.profileData[field := v])
      case None => ProfileState(flags, s.profileData)
  }

  /** handleInputChange: exactly one form value changes. */
  function HandleInputChange(s: ProfileState, field: string, value: string): (r: ProfileState)
    ensures r.profileData.Keys == s.profileData.Keys + {field} && r.profileData[field] == value
    ensures forall f :: f in s.profileData && f != field ==> r.profileData[f] == s.profileData[f]
    ensures r.isEditing == s.isEditing
  {
    ProfileState(s.isEditing, s.profileData[field := value])
  }

  /** Cancelling right after the form was filled from a user changes no value. */
  lemma CancelAfterLoad(s: ProfileState, u: User, field: string)
    requires field in Fields
    ensures HandleCancel(Loaded(s, Some(u)), field, Some(u)).profileData == Loaded(s, Some(u)).profileData
  {
    var d := Loaded(s, Some(u)).profileData;
    assert d[field := UserData(u)[field]] == d;
  }

  /** Edit, type, cancel: the field is out of edit mode with the user's value
      back, and the rest of the form is as before the edit. */
  lemma EditTypeCancel(s: ProfileState, field: string, value: string, u: User)
    requires field in Fields && field in s.profileData
    ensures var r := HandleCancel(HandleInputChange(HandleEdit(s, field), field, value), field, Some(u));
      && !r.isEditing[field]
      && r.profileData[field] == UserData(u)[field]
      && r.profileData.Keys == s.profileData.Keys
      && forall f :: f in s.profileData && f != field ==> r.profileData[f] == s.profileData[f]
  {
  }
}
