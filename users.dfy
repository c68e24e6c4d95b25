/**
 * The player's profile: a nickname, validated after trimming, and the time
 * it was set. Strings are sequences of Unicode scalar values; lengths are
 * measured as the host language measures them, in UTF-16 code units.
 * Persistence of the profile is not modelled.
 */
module Users {
  import opened GameTypes

  const MinNicknameLength: int := 2
  const MaxNicknameLength: int := 20
  const GuestName: string := "Guest"

  /** The white-space and line-terminator characters that `trim` removes. */
  predicate IsJsSpace(c: char) {
    var n := c as int;
    (0x09 <= n <= 0x0D) || n == 0x20 || n == 0xA0 || n == 0x1680 ||
    (0x2000 <= n <= 0x200A) || n == 0x2028 || n == 0x2029 || n == 0x202F ||
    n == 0x205F || n == 0x3000 || n == 0xFEFF
  }

  /** Number of UTF-16 code units of a character: two above the Basic Multilingual Plane. */
  function CodeUnits(c: char): (n: int)
    ensures n == 1 || n == 2
  {
    if c as int > 0xFFFF then 2 else 1
  }

  /** The `length` of a string: its UTF-16 code units. */
  function Utf16Length(s: string): (n: int)
    ensures |s| <= n <= 2 * |s|
    ensures n == 0 <==> s == []
  {
    if s == [] then 0 else CodeUnits(s[0]) + Utf16Length(s[1..])
  }

  /** Number of white-space characters at the start of `s`. */
  function LeadingSpaces(s: string): (n: int)
    ensures 0 <= n <= |s|
    ensures forall k :: 0 <= k < n ==> IsJsSpace(s[k])
    ensures n < |s| ==> !IsJsSpace(s[n])
  {
    if s == [] || !IsJsSpace(s[0]) then 0 else 1 + LeadingSpaces(s[1..])
  }

  /** Number of white-space characters at the end of `s`. */
  function TrailingSpaces(s: string): (n: int)
    ensures 0 <= n <= |s|
    ensures forall k :: |s| - n <= k < |s| ==> IsJsSpace(s[k])
    ensures n < |s| ==> !IsJsSpace(s[|s| - n - 1])
  {
    if s == [] || !IsJsSpace(s[|s| - 1]) then 0 else 1 + TrailingSpaces(s[..|s| - 1])
  }

  /**
   * `s` without leading and trailing white space: a slice of `s` whose
   * first and last characters are not white space, everything cut off
   * being white space.
   */
  function Trim(s: string): (r: string)
    ensures |r| <= |s|
    ensures r == [] || (!IsJsSpace(r[0]) && !IsJsSpace(r[|r| - 1]))
    ensures exists i, j :: 0 <= i <= j <= |s| && r == s[i..j] &&
              (forall k :: 0 <= k < i ==> IsJsSpace(s[k])) &&
              (forall k :: j <= k < |s| ==> IsJsSpace(s[k]))
  {
    var start := LeadingSpaces(s);
    var rest := s[start..];
    var end := |rest| - TrailingSpaces(rest);
    assert rest[..end] == s[start..start + end];
    rest[..end]
  }

  /** A string made only of white space trims to nothing; any other string to something. */
  lemma TrimEmptyIffAllSpace(s: string)
    ensures Trim(s) == [] <==> forall k :: 0 <= k < |s| ==> IsJsSpace(s[k])
  {
    var start := LeadingSpaces(s);
    if start < |s| {
      var rest := s[start..];
      assert !IsJsSpace(rest[0]);
      assert TrailingSpaces(rest) < |rest|;
      assert Trim(s) != [];
    }
  }

  /** Trimming a trimmed string changes nothing. */
  lemma TrimIdempotent(s: string)
    ensures Trim(Trim(s)) == Trim(s)
  {
    var r := Trim(s);
    if r != [] {
      assert LeadingSpaces(r) == 0;
      assert TrailingSpaces(r) == 0;
      assert r[0..][..|r|] == r;
    }
  }

  /** The outcome of validating a nickname. */
  datatype NicknameCheck = Accepted(nickname: string) | TooShort | TooLong

  /**
   * Validates a nickname: after trimming it must be at least 2 and at
   * most 20 code units long; the accepted nickname is the trimmed one.
   */
  function CheckNickname(nickname: string): (r: NicknameCheck)
    ensures r.TooShort? <==> Utf16Length(Trim(nickname)) < MinNicknameLength
    ensures r.TooLong? <==> Utf16Length(Trim(nickname)) > MaxNicknameLength
    ensures r.Accepted? ==> r.nickname == Trim(nickname) && r.nickname != []
    ensures r.Accepted? ==> 1 <= |r.nickname| <= MaxNicknameLength
  {
    var trimmed := Trim(nickname);
    if trimmed == [] || Utf16Length(trimmed) < MinNicknameLength then TooShort
    else if Utf16Length(trimmed) > MaxNicknameLength then TooLong
    else Accepted(trimmed)
  }

  /** An accepted nickname is accepted again, unchanged. */
  lemma AcceptedIsStable(nickname: string)
    requires CheckNickname(nickname).Accepted?
    ensures CheckNickname(CheckNickname(nickname).nickname) == CheckNickname(nickname)
  {
    TrimIdempotent(nickname);
  }

  /** Surrounding white space never changes the verdict. */
  lemma PaddingIgnored(nickname: string, pad: string)
    requires forall k :: 0 <= k < |pad| ==> IsJsSpace(pad[k])
    ensures CheckNickname(pad + nickname + pad) == CheckNickname(nickname)
  {
    TrimPadded(nickname, pad);
  }

  lemma TrimPadded(s: string, pad: string)
    requires forall k :: 0 <= k < |pad| ==> IsJsSpace(pad[k])
    ensures Trim(pad + s + pad) == Trim(s)
  {
    var t := pad + s + pad;
    var a := LeadingSpaces(s);
    if a < |s| {
      var u := s[a..];
      assert t == pad + (s + pad);
      LeadingSpacesPrefix(pad, s + pad);
      LeadingSpacesOf(s, pad, a);
      assert LeadingSpaces(t) == |pad| + a;
      assert t[|pad| + a..] == u + pad;
      var b := TrailingSpaces(u);
      assert b < |u| by {
        assert !IsJsSpace(u[0]);
      }
      TrailingSpacesOf(u, pad, b);
      TrimUnfold(t, |pad| + a, u + pad);
      TrimUnfold(s, a, u);
      assert (u + pad)[..|u| - b] == u[..|u| - b];
    } else {
      forall k | 0 <= k < |t| ensures IsJsSpace(t[k]) {
        if k < |pad| {
        } else if k < |pad| + |s| {
          assert t[k] == s[k - |pad|];
        } else {
          assert t[k] == pad[k - |pad| - |s|];
        }
      }
      TrimEmptyIffAllSpace(s);
      TrimEmptyIffAllSpace(t);
    }
  }

  lemma TrimUnfold(t: string, n: int, u: string)
    requires n == LeadingSpaces(t) && u == t[n..]
    ensures Trim(t) == u[..|u| - TrailingSpaces(u)]
  {
  }

  lemma {:induction false} LeadingSpacesPrefix(pad: string, s: string)
    requires forall k :: 0 <= k < |pad| ==> IsJsSpace(pad[k])
    ensures LeadingSpaces(pad + s) == |pad| + LeadingSpaces(s)
    decreases |pad|
  {
    if pad == [] {
      assert pad + s == s;
    } else {
      assert (pad + s)[1..] == pad[1..] + s;
      LeadingSpacesPrefix(pad[1..], s);
    }
  }

  lemma LeadingSpacesOf(s: string, pad: string, a: int)
    requires a == LeadingSpaces(s) && a < |s|
    ensures LeadingSpaces(s + pad) == a
  {
    forall k | 0 <= k <= a ensures (s + pad)[k] == s[k] {
    }
  }

  lemma TrailingSpacesOf(s: string, pad: string, b: int)
    requires forall k :: 0 <= k < |pad| ==> IsJsSpace(pad[k])
    requires b == TrailingSpaces(s) && b < |s|
    ensures TrailingSpaces(s + pad) == |pad| + b
  {
    var t := s + pad;
    forall k | |t| - (|pad| + b) <= k < |t| ensures IsJsSpace(t[k]) {
      if k < |s| {
        assert t[k] == s[k];
      } else {
        assert t[k] == pad[k - |s|];
      }
    }
    assert !IsJsSpace(t[|t| - (|pad| + b) - 1]) by {
      assert t[|s| - b - 1] == s[|s| - b - 1];
    }
  }

  /** A stored profile. `createdAt` is the clock reading in milliseconds when the nickname was set. */
  datatype UserProfile = UserProfile(nickname: string, createdAt: int)

  class UserManager {
    var profile: Option<UserProfile>

    /** Starts from the stored profile, or none when nothing readable is stored. */
    constructor (stored: Option<UserProfile>)
      ensures profile == stored
    {
      profile := stored;
    }

    function HasProfile(): (b: bool)
      reads this
      ensures b <==> profile.Some?
    {
      profile != None
    }

    /** The nickname to display: the stored one, or "Guest" when there is none or it is empty. */
    function GetNickname(): (n: string)
      reads this
      ensures n != []
      ensures profile.None? ==> n == GuestName
      ensures profile.Some? && profile.value.nickname != [] ==> n == profile.value.nickname
      ensures profile.Some? && profile.value.nickname == [] ==> n == GuestName
    {
      if profile.Some? && profile.value.nickname != [] then profile.value.nickname else GuestName
    }

    /**
     * Validates and stores a nickname, stamped with `now`; on a rejected
     * nickname nothing changes and the reason is returned.
     */
    method SetNickname(nickname: string, now: int) returns (r: NicknameCheck)
      modifies this
      ensures r == CheckNickname(nickname)
      ensures r.Accepted? ==> profile == Some(UserProfile(r.nickname, now))
      ensures r.Accepted? ==> HasProfile() && GetNickname() == Trim(nickname)
      ensures !r.Accepted? ==> profile == old(profile)
    {
      var trimmed := Trim(nickname);
      if trimmed == [] || Utf16Length(trimmed) < MinNicknameLength {
        return TooShort;
      }
      if Utf16Length(trimmed) > MaxNicknameLength {
        return TooLong;
      }
      profile := Some(UserProfile(trimmed, now));
      return Accepted(trimmed);
    }

    method ClearProfile()
      modifies this
      ensures profile == None
      ensures !HasProfile() && GetNickname() == GuestName
    {
      profile := None;
    }
  }
}
