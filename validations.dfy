/** The input validators of the chat front end. Each is a chain of guarded early
    returns: `None` (the source's `null`) means the input is valid, `Some(e)` names
    the first check that failed. */
module Validations {
  import opened Wrappers
  import opened Text
  import Seqs
  import opened Files

  /** The errors the validators report. The message texts are fixed strings in the
      source except the size limit (formatted with `formatFileSize`), the list of
      allowed types and the length limit, which are kept here as values. */
  datatype ValidationError =
    | FileTooLarge(maxSize: int)                  // "File size exceeds <size>"
    | InvalidFileType(allowedTypes: seq<string>)  // "Invalid file type. Allowed types: <list>"
    | MessageEmpty                                // "Message cannot be empty"
    | MessageTooLong(maxLength: int)              // "Message too long. Maximum <n> characters allowed"
    | EmailRequired                               // "Email is required"
    | EmailInvalid                                // "Invalid email format"
    | PasswordRequired                            // "Password is required"
    | PasswordTooShort                            // "Password must be at least 8 characters long"
    | PasswordNoLowercase                         // "Password must contain at least one lowercase letter"
    | PasswordNoUppercase                         // "Password must contain at least one uppercase letter"
    | PasswordNoDigit                             // "Password must contain at least one number"

  // ---------------------------------------------------------------- files

  /** One entry of the allow-list: an entry that starts with '.' is an extension,
      compared case-insensitively with the end of the file name; any other entry is a
      MIME type that must equal the file's type exactly. */
  predicate EntryMatches(file: File, entry: string)
  {
    if StartsWith(entry, ".") then EndsWith(ToLower(file.name), ToLower(entry))
    else file.mimeType == entry
  }

  function ValidateFile(file: File, maxSize: int, allowedTypes: seq<string>): (r: Option<ValidationError>)
    ensures file.size > maxSize ==> r == Some(FileTooLarge(maxSize))
    ensures file.size <= maxSize && r.Some? ==> r == Some(InvalidFileType(allowedTypes))
    ensures r.None? <==>
      (file.size <= maxSize && exists i :: 0 <= i < |allowedTypes| && EntryMatches(file, allowedTypes[i]))
  {
    if file.size > maxSize then Some(FileTooLarge(maxSize))
    else if !Seqs.Any(allowedTypes, entry => EntryMatches(file, entry)) then Some(InvalidFileType(allowedTypes))
    else None
  }

  /** With an empty allow-list no file is accepted: one within the size limit is
      refused for its type. */
  lemma EmptyAllowListRejects(file: File, maxSize: int)
    ensures file.size <= maxSize ==> ValidateFile(file, maxSize, []) == Some(InvalidFileType([]))
  {
  }

  /** Lower-casing is idempotent, so an extension entry matches a file name whatever
      the case of either. */
  lemma ExtensionMatchIgnoresCase(file: File, entry: string)
    requires StartsWith(entry, ".")
    ensures EntryMatches(file, entry) <==> EntryMatches(File(ToLower(file.name), file.mimeType, file.size), ToLower(entry))
  {
    assert ToLower(entry)[0] == '.';
    assert StartsWith(ToLower(entry), ".");
    assert ToLower(ToLower(file.name)) == ToLower(file.name);
    assert ToLower(ToLower(entry)) == ToLower(entry);
  }

  // ---------------------------------------------------------------- messages

  function ValidateMessage(message: string, maxLength: int): (r: Option<ValidationError>)
    ensures IsBlank(message) ==> r == Some(MessageEmpty)
    ensures !IsBlank(message) && |message| > maxLength ==> r == Some(MessageTooLong(maxLength))
    ensures r.None? <==> !IsBlank(message) && |message| <= maxLength
  {
    TrimEmptyIffBlank(message);
    if Trim(message) == [] then Some(MessageEmpty)
    else if |message| > maxLength then Some(MessageTooLong(maxLength))
    else None
  }

  /** The length limit applies to the text as typed, surrounding whitespace included. */
  lemma MessageLengthCountsWhitespace()
    ensures ValidateMessage(" a ", 1) == Some(MessageTooLong(1))
    ensures ValidateMessage("a", 1).None?
  {
    assert !IsBlank(" a ") by { assert " a "[1] == 'a'; }
    assert !IsBlank("a") by { assert "a"[0] == 'a'; }
  }

  // ---------------------------------------------------------------- email

  /** A run the pattern class `[^\s@]+` accepts, apart from being non-empty. */
  predicate NoSpaceOrAt(s: string)
  {
    forall k :: 0 <= k < |s| ==> !IsWhitespace(s[k]) && s[k] != '@'
  }

  /** `s` is split by an '@' at `i` and a '.' at `j` into three non-empty runs with
      neither whitespace nor '@', as in `^[^\s@]+@[^\s@]+\.[^\s@]+$`. */
  predicate PatternSplit(s: string, i: int, j: int)
  {
    0 < i && i + 1 < j && j + 1 < |s| && s[i] == '@' && s[j] == '.'
    && NoSpaceOrAt(s[..i]) && NoSpaceOrAt(s[i + 1..j]) && NoSpaceOrAt(s[j + 1..])
  }

  /** The regular expression `/^[^\s@]+@[^\s@]+\.[^\s@]+$/` accepts `s`. */
  ghost predicate MatchesEmailPattern(s: string)
  {
    exists i, j :: PatternSplit(s, i, j)
  }

  /** The shape the pattern describes, checked directly: no whitespace, exactly one
      '@' with a non-empty local part before it, and a '.' in the domain after it
      that is neither the domain's first nor its last character. */
  predicate WellShapedEmail(s: string)
  {
    (forall k | 0 <= k < |s| :: !IsWhitespace(s[k]))
    && exists i | 0 < i < |s| :: s[i] == '@' && '@' !in s[..i] && '@' !in s[i + 1..] && HasInnerDot(s[i + 1..])
  }

  predicate HasInnerDot(domain: string)
  {
    |domain| >= 3 && '.' in domain[1..|domain| - 1]
  }

  /** The direct check accepts exactly the strings the regular expression accepts. */
  lemma WellShapedIffPattern(s: string)
    ensures WellShapedEmail(s) <==> MatchesEmailPattern(s)
  {
    if WellShapedEmail(s) { WellShapedMatches(s); }
    if MatchesEmailPattern(s) {
      var i, j :| PatternSplit(s, i, j);
      PatternIsWellShaped(s, i, j);
    }
  }

  lemma WellShapedMatches(s: string)
    requires WellShapedEmail(s)
    ensures MatchesEmailPattern(s)
  {
    var i :| 0 < i < |s| && s[i] == '@' && '@' !in s[..i] && '@' !in s[i + 1..] && HasInnerDot(s[i + 1..]);
    var d := s[i + 1..];
    var m :| 0 <= m < |d[1..|d| - 1]| && d[1..|d| - 1][m] == '.';
    var j := i + 2 + m;
    assert s[j] == '.';
    forall k | 0 <= k < |s| && k != i ensures s[k] != '@' {
      if k < i { assert s[k] == s[..i][k]; } else { assert s[k] == d[k - i - 1]; }
    }
    RunWithoutSpaceOrAt(s, 0, i, i);
    RunWithoutSpaceOrAt(s, i + 1, j, i);
    RunWithoutSpaceOrAt(s, j + 1, |s|, i);
    assert s[..i] == s[0..i];
    assert PatternSplit(s, i, j);
  }

  /** A slice that avoids position `at` of a string whose only '@' is there and which
      has no whitespace is a run the pattern class `[^\s@]` accepts. */
  lemma RunWithoutSpaceOrAt(s: string, lo: int, hi: int, at: int)
    requires 0 <= lo <= hi <= |s| && !(lo <= at < hi)
    requires forall k | 0 <= k < |s| :: !IsWhitespace(s[k])
    requires forall k :: 0 <= k < |s| && k != at ==> s[k] != '@'
    ensures NoSpaceOrAt(s[lo..hi])
  {
    forall k | 0 <= k < hi - lo ensures !IsWhitespace(s[lo..hi][k]) && s[lo..hi][k] != '@' {
      assert s[lo..hi][k] == s[lo + k];
    }
  }

  lemma PatternIsWellShaped(s: string, i: int, j: int)
    requires PatternSplit(s, i, j)
    ensures WellShapedEmail(s)
  {
    var a, b, c := s[..i], s[i + 1..j], s[j + 1..];
    forall k | 0 <= k < |s| ensures !IsWhitespace(s[k]) {
      if k < i { assert s[k] == a[k]; }
      else if i < k < j { assert s[k] == b[k - i - 1]; }
      else if j < k { assert s[k] == c[k - j - 1]; }
    }
    var d := s[i + 1..];
    assert '@' !in a;
    forall k | 0 <= k < |d| ensures d[k] != '@' {
      if i + 1 + k < j { assert d[k] == b[k]; }
      else if i + 1 + k > j { assert d[k] == c[k - (j - i)]; }
    }
    assert d[1..|d| - 1][j - i - 2] == '.';
  }

  function ValidateEmail(email: string): (r: Option<ValidationError>)
    ensures email == [] ==> r == Some(EmailRequired)
    ensures email != [] && r.Some? ==> r == Some(EmailInvalid)
    ensures r.None? <==> email != [] && MatchesEmailPattern(email)
  {
    WellShapedIffPattern(email);
    if email == [] then Some(EmailRequired)
    else if !WellShapedEmail(email) then Some(EmailInvalid)
    else None
  }

  // ---------------------------------------------------------------- passwords

  function ValidatePassword(password: string): (r: Option<ValidationError>)
    ensures password == [] ==> r == Some(PasswordRequired)
    ensures password != [] && |password| < 8 ==> r == Some(PasswordTooShort)
    ensures |password| >= 8 && (forall i :: 0 <= i < |password| ==> !IsAsciiLower(password[i]))
      ==> r == Some(PasswordNoLowercase)
    ensures |password| >= 8 && (exists i :: 0 <= i < |password| && IsAsciiLower(password[i]))
      && (forall i :: 0 <= i < |password| ==> !IsAsciiUpper(password[i]))
      ==> r == Some(PasswordNoUppercase)
    ensures |password| >= 8 && (exists i :: 0 <= i < |password| && IsAsciiLower(password[i]))
      && (exists i :: 0 <= i < |password| && IsAsciiUpper(password[i]))
      && (forall i :: 0 <= i < |password| ==> !IsAsciiDigit(password[i]))
      ==> r == Some(PasswordNoDigit)
    ensures r.None? <==>
      (|password| >= 8
      && (exists i :: 0 <= i < |password| && IsAsciiLower(password[i]))
      && (exists i :: 0 <= i < |password| && IsAsciiUpper(password[i]))
      && (exists i :: 0 <= i < |password| && IsAsciiDigit(password[i])))
  {
    if password == [] then Some(PasswordRequired)
    else if |password| < 8 then Some(PasswordTooShort)
    else if !Seqs.Any(password, IsAsciiLower) then Some(PasswordNoLowercase)
    else if !Seqs.Any(password, IsAsciiUpper) then Some(PasswordNoUppercase)
    else if !Seqs.Any(password, IsAsciiDigit) then Some(PasswordNoDigit)
    else None
  }
}
