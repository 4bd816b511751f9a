/** The "My Friends" screen: the name typed for a new friend, the blank-name
    guard and the "create friend" request. */
module Friends {
  import opened Wrappers
  import opened Records

  /** The characters `String.prototype.trim` strips: ECMAScript WhiteSpace
      (tab, vertical tab, form feed, space, no-break space, byte order mark
      and the Unicode space separators) and LineTerminator (line feed,
      carriage return, line and paragraph separators). */
  predicate IsWhiteSpace(c: char) {
    || c == '\t' || c == '\n' || c == '\U{0B}' || c == '\U{0C}' || c == '\r'
    || c == ' ' || c == '\U{A0}' || c == '\U{1680}'
    || ('\U{2000}' <= c <= '\U{200A}')
    || c == '\U{2028}' || c == '\U{2029}' || c == '\U{202F}' || c == '\U{205F}'
    || c == '\U{3000}' || c == '\U{FEFF}'
  }

  /** Drops the leading white space: what is left is a suffix of s, and
      everything dropped is white space. */
  function TrimStart(s: string): (r: string)
    ensures |r| <= |s| && r == s[|s| - |r|..]
    ensures forall i :: 0 <= i < |s| - |r| ==> IsWhiteSpace(s[i])
    ensures r != [] ==> !IsWhiteSpace(r[0])
  {
    if s != [] && IsWhiteSpace(s[0]) then TrimStart(s[1..]) else s
  }

  /** Drops the trailing white space: what is left is a prefix of s, and
      everything dropped is white space. */
  function TrimEnd(s: string): (r: string)
    ensures |r| <= |s| && r == s[..|r|]
    ensures forall i :: |r| <= i < |s| ==> IsWhiteSpace(s[i])
    ensures r != [] ==> !IsWhiteSpace(r[|r| - 1])
  {
    if s != [] && IsWhiteSpace(s[|s| - 1]) then TrimEnd(s[..|s| - 1]) else s
  }

  /** `s.trim()`. */
  function Trim(s: string): (r: string)
    ensures |r| <= |s|
    ensures r != [] ==> !IsWhiteSpace(r[0]) && !IsWhiteSpace(r[|r| - 1])
  {
    TrimEnd(TrimStart(s))
  }

  /** The trimmed name is the stretch of s between a white-space prefix of
      length k and a white-space suffix: together with Trim's own contract
      it is s with its white-space ends removed. */
  lemma TrimIsInfix(s: string) returns (k: nat)
    ensures k + |Trim(s)| <= |s| && Trim(s) == s[k..k + |Trim(s)|]
    ensures forall i :: 0 <= i < k || k + |Trim(s)| <= i < |s| ==> IsWhiteSpace(s[i])
  {
    var t := TrimStart(s);
    k := |s| - |t|;
    var r := TrimEnd(t);
    assert r == Trim(s);
    forall i | 0 <= i < k || k + |r| <= i < |s|
      ensures IsWhiteSpace(s[i])
    {
      if i >= k {
        assert s[i] == t[i - k];
      }
    }
  }

  /** `!name.trim()`: the name is empty once trimmed. */
  predicate IsBlank(name: string) {
    Trim(name) == ""
  }

  /** Trimming a string of white space only leaves nothing. */
  lemma {:induction false} TrimStartAllWhiteSpace(s: string)
    requires forall i :: 0 <= i < |s| ==> IsWhiteSpace(s[i])
    ensures TrimStart(s) == ""
  {
    if s != [] {
      assert IsWhiteSpace(s[0]);
      TrimStartAllWhiteSpace(s[1..]);
    }
  }

  /** A name with some character that is not white space is not blank:
      trimming keeps that character. */
  lemma NameWithLetterIsNotBlank(name: string, k: nat)
    requires k < |name| && !IsWhiteSpace(name[k])
    ensures !IsBlank(name)
  {
    var t := TrimStart(name);
    assert k >= |name| - |t|;
    var j := k - (|name| - |t|);
    assert t[j] == name[k];
    assert |TrimEnd(t)| > j;
  }

  /** A name is blank exactly when every character of it is white space; in
      particular the empty name is blank. */
  lemma BlankIffAllWhiteSpace(name: string)
    ensures IsBlank(name) <==> forall i :: 0 <= i < |name| ==> IsWhiteSpace(name[i])
  {
    if forall i :: 0 <= i < |name| ==> IsWhiteSpace(name[i]) {
      TrimStartAllWhiteSpace(name);
    } else {
      var k :| 0 <= k < |name| && !IsWhiteSpace(name[k]);
      NameWithLetterIsNotBlank(name, k);
    }
  }

  /** The component state of the screen: the name input and the list last
      fetched from the store. */
  class Page {
    var newFriendName: string
    var friends: seq<Friend>

    constructor ()
      ensures newFriendName == "" && friends == []
    {
      newFriendName := "";
      friends := [];
    }

    /** Typing into the name input. */
    method EditName(text: string)
      modifies this
      ensures newFriendName == text && friends == old(friends)
    {
      newFriendName := text;
    }

    /** `addFriend`: a blank name sends nothing and changes nothing; any
        other name is sent as typed, untrimmed. The input is cleared only
        when the request went through (`posted`): a rejected request throws
        before the input is cleared. The list itself only changes on the
        next fetch. */
    method AddFriend(posted: bool) returns (request: Option<NewFriend>)
      modifies this
      ensures IsBlank(old(newFriendName)) ==> request == None && newFriendName == old(newFriendName)
      ensures !IsBlank(old(newFriendName)) ==> request == Some(NewFriend(old(newFriendName)))
      ensures !IsBlank(old(newFriendName)) ==> newFriendName == (if posted then "" else old(newFriendName))
      ensures friends == old(friends)
    {
      if IsBlank(newFriendName) {
        return None;
      }
      request := Some(NewFriend(newFriendName));
      if posted {
        newFriendName := "";
      }
    }
  }

  /** There is no uniqueness check: entering the same name twice sends two
      identical create requests. */
  method AddSameNameTwice(name: string) returns (first: Option<NewFriend>, second: Option<NewFriend>)
    requires !IsBlank(name)
    ensures first == Some(NewFriend(name)) && second == first
  {
    var page := new Page();
    page.EditName(name);
    first := page.AddFriend(true);
    page.EditName(name);
    second := page.AddFriend(true);
  }
}
