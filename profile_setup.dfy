/** Profile completion (`ProfileSetup`): the full-name check and what a
    submit writes, shows and navigates to. */
module ProfileSetup {
  import opened Common

  /** The characters `String.prototype.trim` removes: ECMAScript white space
      and line terminators. */
  predicate IsJsWhitespace(c: char) {
    c == ' ' || c == '\t' || c == '\n' || c == '\r' || c == '\U{000B}' || c == '\U{000C}' ||
    c == '\U{00A0}' || c == '\U{1680}' || ('\U{2000}' <= c <= '\U{200A}') || c == '\U{2028}' ||
    c == '\U{2029}' || c == '\U{202F}' || c == '\U{205F}' || c == '\U{3000}' || c == '\U{FEFF}'
  }

  predicate AllWhitespace(s: string) {
    forall i :: 0 <= i < |s| ==> IsJsWhitespace(s[i])
  }

  /** `s` without its leading white space. */
  function TrimStart(s: string): (r: string)
    ensures |r| <= |s| && r == s[|s| - |r|..]
    ensures r == [] || !IsJsWhitespace(r[0])
    ensures AllWhitespace(s[..|s| - |r|])
    decreases |s|
  {
    if s != [] && IsJsWhitespace(s[0]) then
      var r := TrimStart(s[1..]);
      assert s[..|s| - |r|] == [s[0]] + s[1..][..|s[1..]| - |r|];
      r
    else s
  }

  /** `s` without its trailing white space. */
  function TrimEnd(s: string): (r: string)
    ensures |r| <= |s| && r == s[..|r|]
    ensures r == [] || !IsJsWhitespace(r[|r| - 1])
    ensures AllWhitespace(s[|r|..])
    decreases |s|
  {
    if s != [] && IsJsWhitespace(s[|s| - 1]) then
      var r := TrimEnd(s[..|s| - 1]);
      assert s[|r|..] == s[..|s| - 1][|r|..] + [s[|s| - 1]];
      r
    else s
  }

  /** Only a string of white space loses everything to the leading trim. */
  lemma {:induction false} TrimStartBlank(s: string)
    ensures TrimStart(s) == [] <==> AllWhitespace(s)
    decreases |s|
  {
    if s != [] && IsJsWhitespace(s[0]) {
      TrimStartBlank(s[1..]);
      assert AllWhitespace(s) <==> AllWhitespace(s[1..]) by {
        assert forall i :: 1 <= i < |s| ==> s[i] == s[1..][i - 1];
      }
    }
  }

  /** The trailing trim keeps a first character that is not white space. */
  lemma TrimEndKeepsFirst(t: string)
    requires t == [] || !IsJsWhitespace(t[0])
    ensures TrimEnd(t) == [] <==> t == []
  {
    var r := TrimEnd(t);
    assert forall i :: |r| <= i < |t| ==> t[i] == t[|r|..][i - |r|];
  }

  /** `s.trim()`. */
  function Trim(s: string): (r: string)
    ensures |r| <= |s|
    ensures r == [] || (!IsJsWhitespace(r[0]) && !IsJsWhitespace(r[|r| - 1]))
    ensures r == [] <==> AllWhitespace(s)
  {
    TrimStartBlank(s);
    TrimEndKeepsFirst(TrimStart(s));
    TrimEnd(TrimStart(s))
  }

  /** `s.split(' ')`: the pieces between single spaces, empty ones included. */
  function SplitOnSpace(s: string): (parts: seq<string>)
    ensures |parts| >= 1
    ensures |parts| >= 2 <==> ' ' in s
    decreases |s|
  {
    if s == [] then [""]
    else
      var rest := SplitOnSpace(s[1..]);
      assert ' ' in s <==> s[0] == ' ' || ' ' in s[1..] by {
        assert s == [s[0]] + s[1..];
      }
      if s[0] == ' ' then [""] + rest
      else [[s[0]] + rest[0]] + rest[1..]
  }

  /** `validateFullName`: at least two pieces after trimming and splitting. */
  function ValidateFullName(name: string): (ok: bool)
    ensures ok <==> ' ' in Trim(name)
  {
    |SplitOnSpace(Trim(name))| >= 2
  }

  lemma {:induction false} TrimStartPadded(pre: string, s: string)
    requires AllWhitespace(pre)
    ensures TrimStart(pre + s) == TrimStart(s)
    decreases |pre|
  {
    if pre != [] {
      assert (pre + s)[1..] == pre[1..] + s;
      TrimStartPadded(pre[1..], s);
    } else {
      assert pre + s == s;
    }
  }

  lemma {:induction false} TrimEndPadded(s: string, post: string)
    requires AllWhitespace(post)
    ensures TrimEnd(s + post) == TrimEnd(s)
    decreases |post|
  {
    if post != [] {
      assert (s + post)[..|s + post| - 1] == s + post[..|post| - 1];
      TrimEndPadded(s, post[..|post| - 1]);
    } else {
      assert s + post == s;
    }
  }

  /** Trailing white space is dropped by the trim whether or not the string
      also starts with some. */
  lemma {:induction false} TrimWithTrailing(name: string, post: string)
    requires AllWhitespace(post)
    ensures TrimEnd(TrimStart(name + post)) == TrimEnd(TrimStart(name))
    decreases |name|
  {
    if name == [] {
      assert name + post == post;
      TrimStartPadded(post, []);
      assert post + [] == post;
    } else if IsJsWhitespace(name[0]) {
      assert (name + post)[0] == name[0] && (name + post)[1..] == name[1..] + post;
      TrimWithTrailing(name[1..], post);
    } else {
      assert (name + post)[0] == name[0];
      TrimEndPadded(name, post);
    }
  }

  /** White space added before or after a name does not change whether it is
      accepted: padding cannot turn one word into two. */
  lemma PaddingCannotValidate(pre: string, name: string, post: string)
    requires AllWhitespace(pre) && AllWhitespace(post)
    ensures ValidateFullName(pre + name + post) == ValidateFullName(name)
  {
    var full := pre + name + post;
    ConcatAssoc(pre, name, post);
    TrimStartPadded(pre, name + post);
    TrimWithTrailing(name, post);
    assert Trim(full) == Trim(name);
  }

  /** Two words separated by a plain space are accepted. */
  lemma TwoWordsAccepted()
    ensures ValidateFullName("Ana Pop")
  {
    var n := "Ana Pop";
    assert !IsJsWhitespace(n[0]) && !IsJsWhitespace(n[6]);
    assert TrimStart(n) == n;
    assert TrimEnd(n) == n;
    assert n[3] == ' ';
  }

  /** A name without a plain space is refused, however it is padded: a tab
      or other white space between words does not separate them. */
  lemma NoSpaceRefused(pre: string, word: string, post: string)
    requires AllWhitespace(pre) && AllWhitespace(post)
    requires ' ' !in word
    ensures !ValidateFullName(pre + word + post)
  {
    PaddingCannotValidate(pre, word, post);
    var a := TrimStart(word);
    var t := TrimEnd(a);
    forall i | 0 <= i < |t| ensures t[i] != ' ' {
      assert t[i] == a[i] == word[|word| - |a| + i];
    }
  }

  /** Words separated by a tab are refused: only `' '` splits. */
  lemma TabSeparatedRefused()
    ensures !ValidateFullName("Ana\tPop")
  {
    var n := "Ana\tPop";
    assert forall i :: 0 <= i < |n| ==> n[i] != ' ';
    NoSpaceRefused("", n, "");
    assert "" + n + "" == n;
  }

  /** What `updateDoc`/`setDoc` did. */
  datatype WriteResult = WriteOk | WriteFailed(message: string)

  /** The component state and effects after one submit. */
  datatype Outcome = Outcome(error: string, loading: bool, writes: seq<UserWrite>, navigatesTo: Option<string>)

  const NameError := "Full name must include at least two words."
  const WriteError := "Failed to complete profile. Please try again."

  /** `handleSubmit`. A rejected name sets the error and writes nothing; an
      accepted one, with a user, merges the raw name and number with
      `profileComplete: true` and goes to the treatment list; a failed write
      shows its message, or a fallback when the message is empty. Loading
      ends false on every path. */
  function HandleSubmit(fullName: string, phoneNumber: string, currentUser: Option<string>, result: WriteResult): (o: Outcome)
    ensures !o.loading
    ensures !ValidateFullName(fullName) ==> o == Outcome(NameError, false, [], None)
    ensures ValidateFullName(fullName) && currentUser.None? ==> o == Outcome("", false, [], None)
    ensures ValidateFullName(fullName) && currentUser.Some? && result.WriteOk? ==>
              o == Outcome("", false, [CompleteProfile(currentUser.value, fullName, phoneNumber)], Some("/treatments"))
    ensures ValidateFullName(fullName) && currentUser.Some? && result.WriteFailed? ==>
              o.writes == [] && o.navigatesTo == None &&
              o.error == if result.message != "" then result.message else WriteError
    ensures o.writes != [] <==> ValidateFullName(fullName) && currentUser.Some? && result.WriteOk?
  {
    if !ValidateFullName(fullName) then Outcome(NameError, false, [], None)
    else if currentUser.None? then Outcome("", false, [], None)
    else match result
      case WriteOk => Outcome("", false, [CompleteProfile(currentUser.value, fullName, phoneNumber)], Some("/treatments"))
      case WriteFailed(message) => Outcome(if message != "" then message else WriteError, false, [], None)
  }

  /** A stored full name is never blank: the check forces a character other
      than white space on each side of some space. */
  lemma StoredNameNotBlank(fullName: string, phoneNumber: string, uid: string)
    requires HandleSubmit(fullName, phoneNumber, Some(uid), WriteOk).writes != []
    ensures Trim(fullName) != [] && exists i :: 0 <= i < |fullName| && !IsJsWhitespace(fullName[i])
  {
    var t := Trim(fullName);
    var a := TrimStart(fullName);
    assert ' ' in t;
    assert t != [] && !IsJsWhitespace(t[0]) by {
      assert t == a[..|t|];
      assert a != [] && !IsJsWhitespace(a[0]);
    }
    var k := |fullName| - |a|;
    assert fullName[k] == a[0];
  }
}
