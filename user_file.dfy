/**
 * The `users.txt` credential file as the command-line user manager edits
 * it: one `username:hash` entry per line, with comment lines (starting with
 * `#`) and lines without a colon left alone. The file's text is the state;
 * it is read line by line the way Python iterates over a text file, each
 * line keeping its final newline. The hash of a password is an input.
 */
module UserFile {
  import opened Js
  import opened Text

  // ------------------------------------------------------------------ lines

  /** The lines `for line in f` yields: each ends just after a newline, except perhaps the last. */
  function Lines(t: string): seq<string>
    decreases |t|
  {
    if t == [] then []
    else
      var i := IndexOf(t, '\n');
      if i == |t| then [t] else [t[..i + 1]] + Lines(t[i + 1..])
  }

  /** `f.writelines(ls)`. */
  function Concat(ls: seq<string>): string
  {
    if ls == [] then "" else ls[0] + Concat(ls[1..])
  }

  lemma LinesLast(t: string)
    requires t != [] && '\n' !in t
    ensures Lines(t) == [t]
  {
  }

  lemma LinesCons(t: string, i: nat)
    requires i == IndexOf(t, '\n') && i < |t|
    ensures Lines(t) == [t[..i + 1]] + Lines(t[i + 1..])
  {
  }

  lemma ConcatCons(a: string, r: seq<string>)
    ensures Concat([a] + r) == a + Concat(r)
  {
    assert ([a] + r)[1..] == r;
  }

  /** Reading a text into lines loses nothing. */
  lemma {:induction false} ConcatLines(t: string)
    ensures Concat(Lines(t)) == t
    decreases |t|
  {
    if t != [] {
      var i := IndexOf(t, '\n');
      if i < |t| {
        ConcatLines(t[i + 1..]);
        ConcatLinesStep(t, i, Lines(t[i + 1..]));
      } else {
        LinesLast(t);
        assert Concat([t]) == t + Concat([]);
      }
    }
  }

  /** One step of `ConcatLines`: the first line put back before the rest. */
  lemma ConcatLinesStep(t: string, i: nat, rest: seq<string>)
    requires i == IndexOf(t, '\n') && i < |t| && rest == Lines(t[i + 1..])
    requires Concat(rest) == t[i + 1..]
    ensures Concat(Lines(t)) == t
  {
    LinesCons(t, i);
    ConcatCons(t[..i + 1], rest);
    assert t[..i + 1] + t[i + 1..] == t;
  }

  /** A text every line of which is complete: empty, or ending in a newline. */
  predicate Terminated(t: string)
  {
    t == [] || t[|t| - 1] == '\n'
  }

  /** A single complete line: one newline, at its end. */
  predicate OneLine(l: string)
  {
    l != [] && l[|l| - 1] == '\n' && '\n' !in l[..|l| - 1]
  }

  lemma OneLineLines(l: string)
    requires OneLine(l)
    ensures Lines(l) == [l]
  {
    assert IndexOf(l, '\n') == |l| - 1 by {
      assert forall j :: 0 <= j < |l| - 1 ==> l[j] == l[..|l| - 1][j];
    }
    LinesCons(l, |l| - 1);
    assert l[..|l|] == l && l[|l|..] == [];
  }

  lemma IndexOfPrefix(t: string, l: string, i: nat)
    requires i == IndexOf(t, '\n') && i < |t|
    ensures IndexOf(t + l, '\n') == i
  {
    assert (t + l)[i] == '\n';
    assert forall j :: 0 <= j < i ==> (t + l)[j] == t[j];
  }

  lemma SplitAppend(t: string, l: string, i: nat)
    requires i < |t| && Terminated(t)
    ensures (t + l)[..i + 1] == t[..i + 1] && (t + l)[i + 1..] == t[i + 1..] + l
    ensures Terminated(t[i + 1..])
  {
  }

  /** Appending a complete line to a terminated text adds exactly that line. */
  lemma {:induction false} LinesAppend(t: string, l: string)
    requires Terminated(t) && OneLine(l)
    ensures Lines(t + l) == Lines(t) + [l]
    decreases |t|
  {
    if t == [] {
      assert t + l == l;
      OneLineLines(l);
    } else {
      var i := IndexOf(t, '\n');
      SplitAppend(t, l, i);
      LinesAppend(t[i + 1..], l);
      LinesAppendStep(t, l, i);
    }
  }

  /** One step of `LinesAppend`: the first line of `t` is the first line of `t + l`. */
  lemma LinesAppendStep(t: string, l: string, i: nat)
    requires t != [] && Terminated(t) && i == IndexOf(t, '\n')
    requires Lines(t[i + 1..] + l) == Lines(t[i + 1..]) + [l]
    ensures Lines(t + l) == Lines(t) + [l]
  {
    IndexOfPrefix(t, l, i);
    SplitAppend(t, l, i);
    LinesCons(t, i);
    LinesCons(t + l, i);
    var a, rest := t[..i + 1], Lines(t[i + 1..]);
    assert [a] + (rest + [l]) == ([a] + rest) + [l];
  }

  // ---------------------------------------------------------------- entries

  /** A line the user manager reads as an entry: not a comment, and holding a colon. */
  predicate IsEntry(line: string)
  {
    !StartsWith(line, "#") && ':' in line
  }

  /** `line.split(':')[0]`, the username an entry names. */
  function NameOf(line: string): string
  {
    Before(line, ':')
  }

  /** `line.strip().split(':', 1)` compared with the username and the hash. */
  predicate Credentials(line: string, username: string, hashed: string)
  {
    Before(Strip(line), ':') == username && After(Strip(line), ':') == hashed
  }

  /** An entry that lets the user in with that hash. */
  predicate Admits(line: string, username: string, hashed: string)
  {
    IsEntry(line) && Credentials(line, username, hashed)
  }

  predicate Names(line: string, username: string)
  {
    IsEntry(line) && NameOf(line) == username
  }

  /** `user_exists` over the lines of a file. */
  predicate Exists(ls: seq<string>, username: string)
  {
    exists i :: 0 <= i < |ls| && Names(ls[i], username)
  }

  /** `verify_user` over the lines of a file. */
  predicate Verifies(ls: seq<string>, username: string, hashed: string)
  {
    exists i :: 0 <= i < |ls| && Admits(ls[i], username, hashed)
  }

  /** The usernames `list_users` prints, in file order. */
  function Usernames(ls: seq<string>): (r: seq<string>)
    ensures |r| <= |ls|
    ensures forall n :: n in r <==> exists i :: 0 <= i < |ls| && IsEntry(ls[i]) && NameOf(ls[i]) == n
    decreases |ls|
  {
    if ls == [] then []
    else
      var rest := Usernames(ls[1..]);
      assert forall i :: 0 <= i < |ls[1..]| ==> ls[1..][i] == ls[i + 1];
      assert forall i :: 1 <= i < |ls| ==> ls[i] == ls[1..][i - 1];
      if IsEntry(ls[0]) then [NameOf(ls[0])] + rest else rest
  }

  /** A user is listed exactly when it exists. */
  lemma ListedIffExists(ls: seq<string>, username: string)
    ensures username in Usernames(ls) <==> Exists(ls, username)
  {
  }

  /** Whether `remove_user` keeps a line: every line but the entries naming the user. */
  function KeepsLine(username: string): string -> bool
  {
    (line: string) => !Names(line, username)
  }

  /** The lines `remove_user` writes back. */
  function Removed(ls: seq<string>, username: string): seq<string>
  {
    Filter(ls, KeepsLine(username))
  }

  /**
   * Removing keeps every comment line and every other line in order, and
   * removes every entry naming the user.
   */
  lemma RemovedMeaning(ls: seq<string>, username: string)
    ensures SubsequenceOf(Removed(ls, username), ls)
    ensures !Exists(Removed(ls, username), username)
    ensures forall l :: l in ls && !Names(l, username) ==> l in Removed(ls, username)
    ensures forall l :: l in ls && !IsEntry(l) ==> l in Removed(ls, username)
    ensures |Removed(ls, username)| < |ls| <==> Exists(ls, username)
  {
    FilterIsSubsequence(ls, KeepsLine(username));
    var r := Removed(ls, username);
    assert forall i :: 0 <= i < |r| ==> r[i] in r;
    if Exists(ls, username) {
      var i :| 0 <= i < |ls| && Names(ls[i], username);
      RemovedShorter(ls, username, i);
    } else {
      FilterAll(ls, KeepsLine(username));
    }
  }

  lemma {:induction false} RemovedShorter(ls: seq<string>, username: string, i: nat)
    requires i < |ls| && Names(ls[i], username)
    ensures |Removed(ls, username)| < |ls|
    decreases |ls|
  {
    if i > 0 {
      RemovedShorter(ls[1..], username, i - 1);
    }
  }

  /** The line `change_password` writes for the user. */
  function Entry(username: string, hashed: string): string
  {
    username + ":" + hashed + "\n"
  }

  /** What `change_password` writes for one line: the new entry for the user's entries, the line itself otherwise. */
  function ChangedLine(line: string, username: string, hashed: string): string
  {
    if Names(line, username) then Entry(username, hashed) else line
  }

  /** The lines `change_password` writes back. */
  function Changed(ls: seq<string>, username: string, hashed: string): seq<string>
  {
    seq(|ls|, i requires 0 <= i < |ls| => ChangedLine(ls[i], username, hashed))
  }

  /**
   * A line `username:hash` written for a username without a colon or
   * surrounding whitespace, and a hash without surrounding whitespace is an
   * entry for that user with that hash.
   */
  lemma EntryReadsBack(username: string, hashed: string)
    requires username != [] && !IsPySpace(username[0]) && ':' !in username && '#' != username[0]
    requires hashed != [] && !IsPySpace(hashed[|hashed| - 1])
    ensures Names(Entry(username, hashed), username)
    ensures Credentials(Entry(username, hashed), username, hashed)
  {
    var line := Entry(username, hashed);
    assert line == username + ":" + (hashed + "\n");
    ColonSplit(username, hashed + "\n");
    assert !StartsWith(line, "#") by { assert line[0] == username[0]; }
    StripEntry(username, hashed);
    ColonSplit(username, hashed);
  }

  /** A text `p:s` whose `p` holds no colon splits at the colon after `p`. */
  lemma ColonSplit(p: string, s: string)
    requires ':' !in p
    ensures IndexOf(p + ":" + s, ':') == |p|
    ensures Before(p + ":" + s, ':') == p && After(p + ":" + s, ':') == s
  {
    var t := p + ":" + s;
    assert t[|p|] == ':';
    assert forall j :: 0 <= j < |p| ==> t[j] == p[j];
    assert t[..|p|] == p;
    assert t[|p| + 1..] == s;
  }

  /** Stripping an entry drops exactly its newline. */
  lemma StripEntry(username: string, hashed: string)
    requires username != [] && !IsPySpace(username[0])
    requires hashed != [] && !IsPySpace(hashed[|hashed| - 1])
    ensures Strip(Entry(username, hashed)) == username + ":" + hashed
  {
    var line := Entry(username, hashed);
    var body := username + ":" + hashed;
    assert line == body + "\n";
    assert line[0] == username[0];
    assert StripLeft(line) == line;
    assert line[..|line| - 1] == body;
    assert body[|body| - 1] == hashed[|hashed| - 1];
    assert StripRight(line) == StripRight(body);
  }

  /**
   * After a change the file has as many lines as before: every entry of the
   * user carries the new hash, so the user verifies with it, and every
   * other line is as it was.
   */
  lemma ChangedMeaning(ls: seq<string>, username: string, hashed: string)
    requires username != [] && !IsPySpace(username[0]) && ':' !in username && '#' != username[0]
    requires hashed != [] && !IsPySpace(hashed[|hashed| - 1])
    requires Exists(ls, username)
    ensures |Changed(ls, username, hashed)| == |ls|
    ensures Verifies(Changed(ls, username, hashed), username, hashed)
    ensures forall i :: 0 <= i < |ls| && Names(ls[i], username) ==> Changed(ls, username, hashed)[i] == Entry(username, hashed)
    ensures forall i :: 0 <= i < |ls| && !Names(ls[i], username) ==> Changed(ls, username, hashed)[i] == ls[i]
  {
    ChangedLines(ls, username, hashed);
    ChangedVerifies(ls, username, hashed);
  }

  lemma ChangedLines(ls: seq<string>, username: string, hashed: string)
    ensures |Changed(ls, username, hashed)| == |ls|
    ensures forall i :: 0 <= i < |ls| && Names(ls[i], username) ==> Changed(ls, username, hashed)[i] == Entry(username, hashed)
    ensures forall i :: 0 <= i < |ls| && !Names(ls[i], username) ==> Changed(ls, username, hashed)[i] == ls[i]
  {
  }

  lemma ChangedVerifies(ls: seq<string>, username: string, hashed: string)
    requires username != [] && !IsPySpace(username[0]) && ':' !in username && '#' != username[0]
    requires hashed != [] && !IsPySpace(hashed[|hashed| - 1])
    requires Exists(ls, username)
    ensures Verifies(Changed(ls, username, hashed), username, hashed)
  {
    var i :| 0 <= i < |ls| && Names(ls[i], username);
    EntryReadsBack(username, hashed);
    var e := Entry(username, hashed);
    assert Changed(ls, username, hashed)[i] == e;
    assert Admits(e, username, hashed);
  }

  /** What `add_user` appends to the file. */
  function Added(content: Option<string>, username: string, hashed: string): string
  {
    (if content.Some? then content.value else "") + Entry(username, hashed)
  }

  /**
   * `add_user` as written accepts a username containing a colon, and the
   * entry it appends then names a different user: the name never exists.
   */
  lemma ColonNameUnfindable()
    ensures var ls := Lines(Added(Some(""), "a:b", "h"));
            ls == ["a:b:h\n"] && !Exists(ls, "a:b") && Exists(ls, "a")
  {
    var t := Added(Some(""), "a:b", "h");
    assert t == "a:b:h\n";
    assert IndexOf(t, '\n') == 5;
    assert t[..6] == t && t[6..] == [];
    assert IndexOf(t, ':') == 1;
    assert NameOf(t) == "a";
    assert Names(Lines(t)[0], "a");
  }

  /** `add_user` as written also accepts a name starting with `#`, whose line is then skipped as a comment. */
  lemma CommentNameUnfindable()
    ensures var ls := Lines(Added(Some(""), "#a", "h"));
            ls == ["#a:h\n"] && !Exists(ls, "#a")
  {
    var t := Added(Some(""), "#a", "h");
    assert t == "#a:h\n";
    assert IndexOf(t, '\n') == 4;
    assert t[..5] == t && t[5..] == [];
    assert StartsWith(t, "#") by { assert t[..1] == "#"; }
  }

  /**
   * A username `add_user` can store so that it reads back: not empty, not
   * starting with `#` (its line would be read as a comment), and with no
   * colon and no line break (`\n`, or a `\r`, which Python's text mode
   * also reads as one).
   */
  predicate StorableName(username: string)
  {
    username != "" && username[0] != '#' && ':' !in username && '\n' !in username && '\r' !in username
  }

  /** A stored name is found again once its entry has been appended. */
  lemma AddedExists(t: string, username: string, hashed: string)
    requires Terminated(t) && StorableName(username) && '\n' !in hashed
    ensures Exists(Lines(t + Entry(username, hashed)), username)
    ensures Lines(t + Entry(username, hashed)) == Lines(t) + [Entry(username, hashed)]
  {
    var e := Entry(username, hashed);
    assert e[..|e| - 1] == username + ":" + hashed;
    assert '\n' !in e[..|e| - 1];
    LinesAppend(t, e);
    assert IndexOf(e, ':') == |username| by {
      assert e[|username|] == ':';
      assert forall j :: 0 <= j < |username| ==> e[j] == username[j];
    }
    assert e[..|username|] == username;
    assert !StartsWith(e, "#") by { assert e[0] == username[0]; }
    var ls := Lines(t + e);
    assert ls[|ls| - 1] == e;
  }

  /** The loop of `verify_user` over the lines of the file. */
  method ScanForEntry(ls: seq<string>, username: string, hashed: string) returns (ok: bool)
    ensures ok <==> Verifies(ls, username, hashed)
  {
    var i := 0;
    while i < |ls|
      invariant 0 <= i <= |ls|
      invariant forall j :: 0 <= j < i ==> !Admits(ls[j], username, hashed)
    {
      if Admits(ls[i], username, hashed) {
        return true;
      }
      i := i + 1;
    }
    return false;
  }

  // ------------------------------------------------------------ the file

  /** `users.txt`: `None` when the file does not exist. */
  class UsersFile {
    var content: Option<string>

    constructor (initial: Option<string>)
      ensures content == initial
    {
      content := initial;
    }

    function Read(): seq<string>
      reads this
    {
      if content.Some? then Lines(content.value) else []
    }

    /** `user_exists`. */
    method UserExists(username: string) returns (found: bool)
      ensures found <==> content.Some? && Exists(Lines(content.value), username)
    {
      if content.None? {
        return false;
      }
      var ls := Lines(content.value);
      var i := 0;
      while i < |ls|
        invariant 0 <= i <= |ls|
        invariant forall j :: 0 <= j < i ==> !Names(ls[j], username)
      {
        if !StartsWith(ls[i], "#") && ':' in ls[i] {
          if NameOf(ls[i]) == username {
            return true;
          }
        }
        i := i + 1;
      }
      return false;
    }

    /** `verify_user`: `hashed` is the password's hash. */
    method VerifyUser(username: string, hashed: string) returns (ok: bool)
      ensures ok <==> content.Some? && Verifies(Lines(content.value), username, hashed)
    {
      if content.None? {
        return false;
      }
      ok := ScanForEntry(Lines(content.value), username, hashed);
    }

    /** `list_users`: `None` when the file does not exist. */
    method ListUsers() returns (users: Option<seq<string>>)
      ensures users == if content.Some? then Some(Usernames(Lines(content.value))) else None
    {
      if content.None? {
        return None;
      }
      var ls := Lines(content.value);
      var names: seq<string> := [];
      var i := 0;
      while i < |ls|
        invariant 0 <= i <= |ls|
        invariant names == Usernames(ls[..i])
      {
        UsernamesStep(ls, i);
        if IsEntry(ls[i]) {
          names := names + [NameOf(ls[i])];
        }
        i := i + 1;
      }
      assert ls[..|ls|] == ls;
      users := Some(names);
    }

    /** `add_user`: appends one entry unless a field is empty or the user already exists. */
    method AddUser(username: string, password: string, hashed: string) returns (ok: bool)
      modifies this
      ensures ok <==> username != "" && password != "" && !(old(content).Some? && Exists(Lines(old(content).value), username))
      ensures ok ==> content == Some(Added(old(content), username, hashed))
      ensures !ok ==> content == old(content)
    {
      if username == "" || password == "" {
        return false;
      }
      var present := UserExists(username);
      if present {
        return false;
      }
      content := Some(Added(content, username, hashed));
      ok := true;
    }

    /** `add_user` refusing a name the file cannot hold. */
    method AddUserChecked(username: string, password: string, hashed: string) returns (ok: bool)
      modifies this
      ensures ok <==> username != "" && password != "" && StorableName(username)
                      && !(old(content).Some? && Exists(Lines(old(content).value), username))
      ensures ok ==> content == Some(Added(old(content), username, hashed))
      ensures !ok ==> content == old(content)
      ensures ok && '\n' !in hashed && (old(content).None? || Terminated(old(content).value)) ==>
        content.Some? && Exists(Lines(content.value), username)
    {
      if !StorableName(username) {
        return false;
      }
      ghost var before := if content.Some? then content.value else "";
      ok := AddUser(username, password, hashed);
      if ok && '\n' !in hashed && Terminated(before) {
        AddedExists(before, username, hashed);
      }
    }

    /** `remove_user`: rewrites the file without the user's entries, or leaves it when there are none. */
    method RemoveUser(username: string) returns (ok: bool)
      modifies this
      ensures ok <==> old(content).Some? && Exists(Lines(old(content).value), username)
      ensures ok ==> content == Some(Concat(Removed(Lines(old(content).value), username)))
      ensures !ok ==> content == old(content)
    {
      if content.None? {
        return false;
      }
      var ls := Lines(content.value);
      var kept: seq<string> := [];
      var found := false;
      var i := 0;
      while i < |ls|
        invariant 0 <= i <= |ls|
        invariant kept == Removed(ls[..i], username)
        invariant found <==> Exists(ls[..i], username)
        invariant content == old(content)
      {
        RemovedStep(ls, i, username);
        ExistsStep(ls, i, username);
        if StartsWith(ls[i], "#") || ':' !in ls[i] {
          kept := kept + [ls[i]];
        } else if NameOf(ls[i]) == username {
          found := true;
        } else {
          kept := kept + [ls[i]];
        }
        i := i + 1;
      }
      assert ls[..|ls|] == ls;
      if !found {
        return false;
      }
      content := Some(Concat(kept));
      ok := true;
    }

    /** `change_password`: every entry of the user gets the new hash. */
    method ChangePassword(username: string, hashed: string) returns (ok: bool)
      modifies this
      ensures ok <==> old(content).Some? && Exists(Lines(old(content).value), username)
      ensures ok ==> content == Some(Concat(Changed(Lines(old(content).value), username, hashed)))
      ensures !ok ==> content == old(content)
    {
      var present := UserExists(username);
      if !present {
        return false;
      }
      var ls := Lines(content.value);
      var lines: seq<string> := [];
      var i := 0;
      while i < |ls|
        invariant 0 <= i <= |ls|
        invariant lines == Changed(ls[..i], username, hashed)
      {
        ChangedStep(ls, i, username, hashed);
        if !StartsWith(ls[i], "#") && ':' in ls[i] && NameOf(ls[i]) == username {
          lines := lines + [Entry(username, hashed)];
        } else {
          lines := lines + [ls[i]];
        }
        i := i + 1;
      }
      assert ls[..|ls|] == ls;
      content := Some(Concat(lines));
      ok := true;
    }
  }

  lemma ChangedStep(ls: seq<string>, i: nat, username: string, hashed: string)
    requires i < |ls|
    ensures Changed(ls[..i + 1], username, hashed) == Changed(ls[..i], username, hashed) + [ChangedLine(ls[i], username, hashed)]
  {
    var a := Changed(ls[..i + 1], username, hashed);
    var b := Changed(ls[..i], username, hashed) + [ChangedLine(ls[i], username, hashed)];
    assert |a| == |b|;
    forall j | 0 <= j < |a| ensures a[j] == b[j] {
      if j < i {
        assert ls[..i + 1][j] == ls[..i][j];
      }
    }
  }

  /** `Usernames` of one more line: its name, when it is an entry, comes last. */
  lemma {:induction false} UsernamesSnoc(a: seq<string>, l: string)
    ensures Usernames(a + [l]) == Usernames(a) + (if IsEntry(l) then [NameOf(l)] else [])
    decreases |a|
  {
    if a == [] {
      assert a + [l] == [l] && [l][1..] == [];
    } else {
      assert (a + [l])[0] == a[0];
      assert (a + [l])[1..] == a[1..] + [l];
      UsernamesSnoc(a[1..], l);
    }
  }

  lemma UsernamesStep(ls: seq<string>, i: nat)
    requires i < |ls|
    ensures Usernames(ls[..i + 1]) == Usernames(ls[..i]) + (if IsEntry(ls[i]) then [NameOf(ls[i])] else [])
  {
    assert ls[..i + 1] == ls[..i] + [ls[i]];
    UsernamesSnoc(ls[..i], ls[i]);
  }

  lemma RemovedStep(ls: seq<string>, i: nat, username: string)
    requires i < |ls|
    ensures Removed(ls[..i + 1], username) == Removed(ls[..i], username) + (if Names(ls[i], username) then [] else [ls[i]])
  {
    assert ls[..i + 1] == ls[..i] + [ls[i]];
    FilterConcat(ls[..i], [ls[i]], KeepsLine(username));
    assert [ls[i]][1..] == [];
  }

  lemma ExistsStep(ls: seq<string>, i: nat, username: string)
    requires i < |ls|
    ensures Exists(ls[..i + 1], username) <==> Exists(ls[..i], username) || Names(ls[i], username)
  {
    assert forall j :: 0 <= j < i ==> ls[..i + 1][j] == ls[..i][j];
    assert ls[..i + 1][i] == ls[i];
  }
}
