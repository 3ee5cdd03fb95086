/**
 * Which lines `runShellCommandFlex` hands to the logger for a command when
 * command logging is on, so that passwords do not appear in the log.
 */
module Redaction {
  import opened Options
  import opened Strings

  /** The password markers, scanned in this order. */
  const PasswordMarkers: seq<string> := ["password ", " -p ", " --p "]

  /** The 17 `x`s that replace a password. */
  const Mask: string := "xxxxxxxxxxxxxxxxx"

  const CfAuth: string := "cf auth"

  /** The fixed line logged for every command containing `cf auth`. */
  const CfAuthLine: string := "cf auth xxxxxxxxxxxxxxxxx"

  /** Marker `k` is in the command and no marker before it is. */
  ghost predicate IsFirstMarker(command: string, k: nat) {
    && k < |PasswordMarkers|
    && Contains(command, PasswordMarkers[k])
    && forall j :: 0 <= j < k ==> !Contains(command, PasswordMarkers[j])
  }

  /** The index of the first marker the command contains, if any. */
  function FirstMarker(command: string): (r: Option<nat>)
    ensures r.Some? ==> IsFirstMarker(command, r.value)
    ensures r.None? <==> forall k :: 0 <= k < |PasswordMarkers| ==> !Contains(command, PasswordMarkers[k])
  {
    if Contains(command, PasswordMarkers[0]) then Some(0)
    else if Contains(command, PasswordMarkers[1]) then Some(1)
    else if Contains(command, PasswordMarkers[2]) then Some(2)
    else None
  }

  /**
   * The command cut one character past the first occurrence of `marker`
   * (or at its end, when that lies beyond it), followed by the mask.
   */
  function MaskedAt(command: string, marker: string): string
    requires Contains(command, marker)
  {
    Take(command, IndexOf(command, marker) + |marker| + 1) + Mask
  }

  /** The lines logged for `command`; none when command logging is off. */
  function RedactedLines(command: string, logcommands: bool): seq<string> {
    if !logcommands then []
    else
      var markerLines := match FirstMarker(command)
        case Some(k) => [MaskedAt(command, PasswordMarkers[k])]
        case None => [];
      var authLines := if Contains(command, CfAuth) then [CfAuthLine] else [];
      markerLines + authLines + (if markerLines + authLines == [] then [command] else [])
  }

  /**
   * The redaction loop: the markers are tried in order, the first one
   * found produces one masked line and ends the scan; `cf auth` is
   * checked separately; the command itself is logged only if neither
   * produced a line.
   */
  method CommandLogLines(command: string, logcommands: bool) returns (lines: seq<string>)
    ensures lines == RedactedLines(command, logcommands)
  {
    lines := [];
    if logcommands {
      var foundPassword := false;
      var passwordStrings := PasswordMarkers;
      for i := 0 to |passwordStrings|
        invariant !foundPassword
        invariant lines == []
        invariant forall j :: 0 <= j < i ==> !Contains(command, passwordStrings[j])
      {
        var passwordString := passwordStrings[i];
        if Contains(command, passwordString) {
          lines := lines + [Take(command, IndexOf(command, passwordString) + |passwordString| + 1) + Mask];
          foundPassword := true;
          assert FirstMarker(command) == Some(i);
          break;
        }
      }
      assert foundPassword <==> FirstMarker(command).Some?;
      if Contains(command, CfAuth) {
        lines := lines + [CfAuthLine];
        foundPassword := true;
      }
      if !foundPassword {
        lines := lines + [command];
      }
    }
  }

  /** Nothing is logged when command logging is off. */
  lemma NothingLoggedWhenDisabled(command: string)
    ensures RedactedLines(command, false) == []
  {
  }

  /**
   * When marker `k` is the first marker present, exactly one marker line
   * is logged: the command up to one character past the marker's first
   * occurrence (clamped to the command's length) followed by the mask;
   * it is followed by the `cf auth` line exactly when `cf auth` occurs.
   */
  lemma FirstMarkerLogged(command: string, k: nat)
    requires IsFirstMarker(command, k)
    ensures var m := PasswordMarkers[k];
      var cut := IndexOf(command, m) + |m| + 1;
      RedactedLines(command, true)
        == [Take(command, cut) + Mask] + (if Contains(command, CfAuth) then [CfAuthLine] else [])
  {
    assert FirstMarker(command) == Some(k);
  }

  /** A command containing `cf auth` logs the fixed masked line, after any marker line. */
  lemma CfAuthLogged(command: string)
    requires Contains(command, CfAuth)
    ensures var lines := RedactedLines(command, true);
      lines[|lines| - 1] == CfAuthLine
    ensures FirstMarker(command).None? ==> RedactedLines(command, true) == [CfAuthLine]
  {
  }

  /** The command is logged verbatim when it holds no marker and no `cf auth`. */
  lemma VerbatimWithoutSecrets(command: string)
    requires forall k :: 0 <= k < |PasswordMarkers| ==> !Contains(command, PasswordMarkers[k])
    requires !Contains(command, CfAuth)
    ensures RedactedLines(command, true) == [command]
  {
  }

  /** Otherwise every logged line ends with the mask and is never the raw-command branch. */
  lemma MaskedWithSecrets(command: string)
    requires (exists k :: 0 <= k < |PasswordMarkers| && Contains(command, PasswordMarkers[k]))
      || Contains(command, CfAuth)
    ensures var lines := RedactedLines(command, true);
      && 1 <= |lines| <= 2
      && forall i :: 0 <= i < |lines| ==> lines[i][|lines[i]| - |Mask|..] == Mask
  {
  }

  /**
   * For a ` -p <value>` flag the kept character is the first character of
   * the value itself: everything before the flag, the flag and that one
   * character reach the log.
   */
  lemma ShortFlagKeepsFirstCharacter(prefix: string, value: string)
    requires |prefix| > 0 && prefix[|prefix| - 1] !in {' ', '-', 'p'}
    requires !Contains(prefix, " -p ")
    requires |value| > 0
    requires !Contains(prefix + " -p " + value, "password ")
    requires !Contains(prefix + " -p " + value, CfAuth)
    ensures RedactedLines(prefix + " -p " + value, true) == [prefix + " -p " + [value[0]] + Mask]
  {
    var command := prefix + " -p " + value;
    FindAfterPrefix(prefix, " -p ", value);
    assert FirstMarker(command) == Some(1);
    assert Take(command, |prefix| + 4 + 1) == prefix + " -p " + [value[0]];
  }

  /**
   * For a `password <value>` flag that is the first occurrence of the
   * marker, the logged line keeps everything before the value and only the
   * value's first character (its opening quote, when it is quoted).
   */
  lemma PasswordFlagMasked(prefix: string, value: string)
    requires |prefix| > 0 && prefix[|prefix| - 1] !in PasswordMarkers[0]
    requires !Contains(prefix, PasswordMarkers[0])
    ensures var lines := RedactedLines(prefix + PasswordMarkers[0] + value, true);
      |lines| >= 1 && lines[0] == prefix + PasswordMarkers[0] + Take(value, 1) + Mask
  {
    var marker := PasswordMarkers[0];
    var command := prefix + marker + value;
    FindAfterPrefix(prefix, marker, value);
    assert FirstMarker(command) == Some(0);
    FirstMarkerLogged(command, 0);
    assert Take(command, |prefix| + |marker| + 1) == prefix + marker + Take(value, 1);
  }
}
