/** The top bar: the role switcher's labels and handler, and the avatar's
    initials. */
module TopBar {
  import opened Wrappers
  import opened App
  import Text
  import Seqs
  import Layout
  import Sidebar

  /** `roleLabels`. */
  function RoleLabel(role: UserRole): (caption: string)
    ensures caption != ""
  {
    match role
    case SuperAdmin => "Super Admin"
    case ContentManager => "Content Manager"
    case CommunityManager => "Community Manager"
    case Moderator => "Moderator / Support"
  }

  /** The switcher lists the roles in the label table's key order. */
  const RoleOptions: seq<UserRole> := [SuperAdmin, ContentManager, CommunityManager, Moderator]

  /** Every role has its own label, every role is offered once, and exactly
      the current role is highlighted. */
  lemma RoleLabelsDistinct(a: UserRole, b: UserRole)
    ensures RoleLabel(a) == RoleLabel(b) <==> a == b
    ensures a in RoleOptions && Seqs.NoDuplicates(RoleOptions)
    ensures |set k | 0 <= k < |RoleOptions| && RoleOptions[k] == a| == 1
  {
    var ks := set k | 0 <= k < |RoleOptions| && RoleOptions[k] == a;
    var k0 := match a
      case SuperAdmin => 0
      case ContentManager => 1
      case CommunityManager => 2
      case Moderator => 3;
    assert ks == {k0};
  }

  /** `handleRoleChange` with the setter the layout passes, its own
      `setCurrentRole`: the role changes, the path (and so the page id
      `getCurrentPage` computes) stays, and the dropdown closes. */
  function HandleRoleChange(shell: Layout.Shell, role: UserRole): (r: (Layout.Shell, bool))
    ensures r.0.currentRole == role && r.0.path == shell.path
    ensures Layout.GetCurrentPage(r.0.path) == Layout.GetCurrentPage(shell.path)
    ensures !r.1
  {
    (shell.(currentRole := role), false)
  }

  /** Picking a role and then picking it again changes nothing more. */
  lemma HandleRoleChangeIdempotent(shell: Layout.Shell, role: UserRole)
    ensures HandleRoleChange(HandleRoleChange(shell, role).0, role) == HandleRoleChange(shell, role)
  {
  }

  /** Switching role on the events list keeps the path on the events page id,
      and the sidebar then lists the new role's items; the application
      shell's `setRole`, which would return to the dashboard, is not the one
      the top bar receives. */
  lemma RoleChangeStaysOnPage(role: UserRole, prev: UserRole, app: AppState)
    ensures var s := HandleRoleChange(Layout.Shell(prev, "/events"), role).0;
      Layout.GetCurrentPage(s.path) == "events" && Sidebar.VisibleItems(s.currentRole) == Sidebar.VisibleItems(role)
    ensures SetRole(app, role).currentPage == "dashboard"
  {
    assert Text.StartsWith("/events", "/events");
  }

  /** `n[0]` for each word, joined: an empty word's `undefined` joins as
      nothing. */
  function Heads(words: seq<string>): (r: string)
    ensures |r| <= |words|
  {
    if |words| == 0 then ""
    else (if words[0] == "" then "" else [words[0][0]]) + Heads(words[1..])
  }

  predicate NonEmpty(w: string) {
    w != ""
  }

  /** The first character of each word. */
  function FirstChars(words: seq<string>): (r: string)
    requires forall k :: 0 <= k < |words| ==> words[k] != ""
    ensures |r| == |words|
  {
    seq(|words|, i requires 0 <= i < |words| => words[i][0])
  }

  /** The heads are the first characters of the non-empty words, in order. */
  lemma {:induction false} HeadsAreFirstChars(words: seq<string>)
    ensures Heads(words) == FirstChars(Seqs.Filter(words, NonEmpty))
  {
    if |words| > 0 {
      HeadsAreFirstChars(words[1..]);
      var rest := Seqs.Filter(words[1..], NonEmpty);
      if words[0] != "" {
        assert Seqs.Filter(words, NonEmpty) == [words[0]] + rest;
        assert FirstChars([words[0]] + rest) == [words[0][0]] + FirstChars(rest);
      } else {
        assert Seqs.Filter(words, NonEmpty) == rest;
      }
    }
  }

  /** The avatar text: 'U' without a (non-empty) full name, else the
      uppercased heads of the space-separated words, at most two. */
  function Initials(fullName: Option<string>): (r: string)
    ensures |r| <= 2
    ensures fullName.None? || fullName.value == "" ==> r == "U"
  {
    if fullName.None? || fullName.value == "" then "U"
    else
      var up := Text.ToUpper(Heads(Text.Split(fullName.value, ' ')));
      if |up| <= 2 then up else up[..2]
  }

  /** A named user's initials are a prefix of the uppercased first characters
      of the non-empty words, and are exactly the first two when there are at
      least two such words. */
  lemma InitialsOfName(name: string)
    requires name != ""
    ensures var ne := Seqs.Filter(Text.Split(name, ' '), NonEmpty);
      var heads := Text.ToUpper(FirstChars(ne));
      Initials(Some(name)) == heads[..if |heads| <= 2 then |heads| else 2]
  {
    HeadsAreFirstChars(Text.Split(name, ' '));
  }

  /** A name made only of spaces has no word with a first character, so the
      avatar is empty rather than 'U'. */
  lemma {:induction false} BlankNameShowsNothing(name: string)
    requires name != "" && forall i :: 0 <= i < |name| ==> name[i] == ' '
    ensures Initials(Some(name)) == ""
  {
    var words := Text.Split(name, ' ');
    Text.SplitSeparatorsOnly(name, ' ');
    var ne := Seqs.Filter(words, NonEmpty);
    if ne != [] {
      Seqs.FilterMembership(words, NonEmpty, ne[0]);
      assert false;
    }
    HeadsAreFirstChars(words);
  }

  /** Splitting such a name on spaces gives the two words first. */
  lemma {:induction false} SplitTwoWords(first: string, second: string, tail: string)
    requires first != "" && ' ' !in first
    requires second != "" && ' ' !in second
    requires tail == "" || tail[0] == ' '
    ensures var words := Text.Split(first + " " + second + tail, ' ');
      |words| >= 2 && words[0] == first && words[1] == second
  {
    var name := first + " " + second + tail;
    assert name == first + [' '] + (second + tail);
    Text.SplitAtSeparator(first, ' ', second + tail);
    if tail == "" {
      assert second + tail == second;
      Text.SplitFirstPart(second, ' ');
    } else {
      assert second + tail == second + [' '] + tail[1..];
      Text.SplitAtSeparator(second, ' ', tail[1..]);
    }
  }

  /** A name with at least two words shows the capitals of the first two,
      whatever follows. */
  lemma {:induction false} InitialsOfFirstTwoWords(first: string, second: string, tail: string)
    requires first != "" && ' ' !in first
    requires second != "" && ' ' !in second
    requires tail == "" || tail[0] == ' '
    ensures Initials(Some(first + " " + second + tail)) == [Text.UpperChar(first[0]), Text.UpperChar(second[0])]
  {
    var words := Text.Split(first + " " + second + tail, ' ');
    SplitTwoWords(first, second, tail);
    assert words[1..][0] == second && words[1..][1..] == words[2..];
    assert Heads(words[1..]) == [second[0]] + Heads(words[2..]);
    var heads := Heads(words);
    assert heads == [first[0]] + Heads(words[1..]);
    assert heads == [first[0], second[0]] + Heads(words[2..]);
    var up := Text.ToUpper(heads);
    assert up[..2] == [Text.UpperChar(first[0]), Text.UpperChar(second[0])];
  }

  /** A one-word name shows its capital. */
  lemma {:induction false} InitialsOfOneWord(word: string)
    requires word != "" && ' ' !in word
    ensures Initials(Some(word)) == [Text.UpperChar(word[0])]
  {
    Text.SplitFirstPart(word, ' ');
    assert Heads([word]) == [word[0]];
  }
}
