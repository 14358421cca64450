/** The user rows that bin/migrate_agent_users.py moves from one database to another. */
module AgentUsers {
  import opened Options
  import Text

  datatype Column = GitHub | Discord | Oidc | WeChat | Telegram | LinuxDo

  /** `profile` stands for the columns that are copied as they are, `amount` for the money and usage columns,
      `token` for the columns that are never copied. */
  datatype User = User(
    username: string, phone: string, email: string, isDistributor: bool, createdAt: Option<int>, isDeleted: bool,
    inviter: int,
    affCode: string, bindings: map<Column, string>, profile: string, amount: int, token: Option<string>, updatedAt: int)

  type Table = map<int, User>

  function Binding(u: User, col: Column): string {
    if col in u.bindings then u.bindings[col] else ""
  }

  // ---------- Python's str.strip ----------

  predicate IsBlank(c: char) {
    Text.IsSpace(c) || '\U{001C}' <= c <= '\U{001F}'
  }

  predicate Stripped(s: string) {
    s == "" || (!IsBlank(s[0]) && !IsBlank(s[|s| - 1]))
  }

  function Strip(s: string): (r: string)
    ensures Stripped(r)
    ensures Stripped(s) ==> r == s
  {
    if s == "" then s
    else if IsBlank(s[0]) then Strip(s[1..])
    else if IsBlank(s[|s| - 1]) then Strip(s[..|s| - 1])
    else s
  }

  /** Besides the white space of Unicode, the four separators from U+001C on count as blank. */
  lemma BlanksExactly(c: char)
    ensures IsBlank(c) <==> Text.IsSpace(c) || c in {'\U{001C}', '\U{001D}', '\U{001E}', '\U{001F}'}
  {
  }

  ghost predicate IsStrippedFrom(s: string, r: string, i: int, j: int)
    requires 0 <= i <= j <= |s|
  {
    && r == s[i..j] && (r != "" ==> !IsBlank(r[0]) && !IsBlank(r[|r| - 1]))
    && forall k :: 0 <= k < |s| && (k < i || j <= k) ==> IsBlank(s[k])
  }

  /** Stripping cuts off blanks at both ends and nothing else, until none is left there. */
  lemma {:induction false} StripCutsBlanks(s: string)
    ensures exists i, j :: 0 <= i <= j <= |s| && IsStrippedFrom(s, Strip(s), i, j)
  {
    hide IsBlank;
    if s != "" && IsBlank(s[0]) {
      StripCutsBlanks(s[1..]);
      var i, j :| 0 <= i <= j <= |s[1..]| && IsStrippedFrom(s[1..], Strip(s[1..]), i, j);
      assert s[1..][i..j] == s[i + 1..j + 1];
      assert forall k :: 0 < k < |s| ==> s[1..][k - 1] == s[k];
      assert IsStrippedFrom(s, Strip(s), i + 1, j + 1);
    } else if s != "" && IsBlank(s[|s| - 1]) {
      StripCutsBlanks(s[..|s| - 1]);
      var i, j :| 0 <= i <= j <= |s| - 1 && IsStrippedFrom(s[..|s| - 1], Strip(s[..|s| - 1]), i, j);
      assert s[..|s| - 1][i..j] == s[i..j];
      assert forall k :: 0 <= k < |s| - 1 ==> s[..|s| - 1][k] == s[k];
      assert IsStrippedFrom(s, Strip(s), i, j);
    } else {
      assert s[0..|s|] == s;
      assert IsStrippedFrom(s, Strip(s), 0, |s|);
    }
  }
}
