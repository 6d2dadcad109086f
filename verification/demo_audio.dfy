/** The `.env` reader of the demo-audio script: the file's lines are folded into
    a dictionary of trimmed keys and values. Reading the file, the speech request
    and writing the audio are not modelled. */
module DemoAudio {
  import opened Js

  /** What one line contributes: `const [key, value] = line.split('=')`, kept
      when both pieces are non-empty, and stored trimmed. */
  function EnvLineEntry(line: string): (r: Option<(string, string)>)
    ensures r.Some? ==> '=' in line
  {
    var pieces := Split(line, '=');
    if pieces[0] != "" && |pieces| > 1 && pieces[1] != "" then Some((Trim(pieces[0]), Trim(pieces[1])))
    else None
  }

  /** The same, by positions: the key piece runs up to the first `=`, the value
      piece from there up to the next `=` or the end of the line. */
  lemma EnvLineEntryByIndex(line: string)
    ensures var i := IndexOf(line, '=');
            var rest := if i < |line| then line[i + 1..] else "";
            var valuePiece := rest[..IndexOf(rest, '=')];
            && (EnvLineEntry(line).Some? <==> i < |line| && 0 < i && valuePiece != "")
            && (EnvLineEntry(line).Some? ==> EnvLineEntry(line).value == (Trim(line[..i]), Trim(valuePiece)))
  {
    LinePieces(line);
  }

  /** The first two pieces of a line split at `=`. */
  lemma LinePieces(line: string)
    ensures var i := IndexOf(line, '=');
            var pieces := Split(line, '=');
            && pieces[0] == line[..i]
            && (|pieces| > 1 <==> i < |line|)
            && (i < |line| ==> pieces[1] == line[i + 1..][..IndexOf(line[i + 1..], '=')])
  {
    var i := IndexOf(line, '=');
    SplitFirst(line, '=');
    if i < |line| {
      assert line == line[..i] + ['='] + line[i + 1..];
      SplitAfterFirst(line[..i], '=', line[i + 1..]);
      SplitFirst(line[i + 1..], '=');
    }
  }

  /** The dictionary after folding `lines` in order into an empty one. */
  function EnvVarsOf(lines: seq<string>): map<string, string>
    decreases |lines|
  {
    if lines == [] then map[]
    else
      var acc := EnvVarsOf(lines[..|lines| - 1]);
      match EnvLineEntry(lines[|lines| - 1])
      case None => acc
      case Some((k, v)) => acc[k := v]
  }

  /** The `reduce` over `envContent.split('\n')`. */
  method ParseEnv(content: string) returns (vars: map<string, string>)
    ensures vars == EnvVarsOf(Split(content, '\n'))
  {
    var lines := Split(content, '\n');
    vars := map[];
    var i := 0;
    while i < |lines|
      invariant 0 <= i <= |lines|
      invariant vars == EnvVarsOf(lines[..i])
    {
      assert lines[..i + 1][..i] == lines[..i];
      var entry := EnvLineEntry(lines[i]);
      if entry.Some? {
        vars := vars[entry.value.0 := entry.value.1];
      }
      i := i + 1;
    }
    assert lines[..|lines|] == lines;
  }

  /** Line `j` contributes key `k`. */
  ghost predicate Contributes(lines: seq<string>, j: int, k: string) {
    0 <= j < |lines| && EnvLineEntry(lines[j]).Some? && EnvLineEntry(lines[j]).value.0 == k
  }

  /** A key is defined exactly when some line contributes it, and its value is the
      one from the last line that does. */
  lemma {:induction false} LastLineWins(lines: seq<string>, k: string)
    ensures k in EnvVarsOf(lines) <==> exists j :: Contributes(lines, j, k)
    ensures k in EnvVarsOf(lines) ==>
              exists j :: Contributes(lines, j, k) && EnvVarsOf(lines)[k] == EnvLineEntry(lines[j]).value.1
                          && forall j' :: j < j' < |lines| ==> !Contributes(lines, j', k)
    decreases |lines|
  {
    if lines != [] {
      var n := |lines| - 1;
      var init := lines[..n];
      var acc := EnvVarsOf(init);
      var e := EnvLineEntry(lines[n]);
      assert EnvVarsOf(lines) == if e.Some? then acc[e.value.0 := e.value.1] else acc;
      if Contributes(lines, n, k) {
        assert EnvVarsOf(lines)[k] == e.value.1;
      } else {
        assert k in EnvVarsOf(lines) <==> k in acc;
        LastLineWins(init, k);
        SameContributions(lines, n, k);
        if k in acc {
          var j :| Contributes(init, j, k) && acc[k] == EnvLineEntry(init[j]).value.1
                   && forall j' :: j < j' < |init| ==> !Contributes(init, j', k);
          assert Contributes(lines, j, k);
          assert EnvVarsOf(lines)[k] == acc[k];
        }
      }
    }
  }

  /** Lines before `n` contribute the same in `lines` and in `lines[..n]`. */
  lemma SameContributions(lines: seq<string>, n: nat, k: string)
    requires n == |lines| - 1 && !Contributes(lines, n, k)
    ensures forall j :: Contributes(lines, j, k) <==> Contributes(lines[..n], j, k)
  {
    forall j ensures Contributes(lines, j, k) <==> Contributes(lines[..n], j, k) {
      if 0 <= j < n {
        assert lines[..n][j] == lines[j];
      }
    }
  }

  /** A `\r` left at the end of a line by `\r\n` line endings is trimmed away
      with the rest of the value's white space. */
  lemma EnvLineCarriageReturn(key: string, value: string)
    requires '=' !in key && '=' !in value && value != ""
    ensures EnvLineEntry(key + "=" + value + "\r") == EnvLineEntry(key + "=" + value)
  {
    assert key + "=" + value + "\r" == key + "=" + (value + "\r");
    TwoPieces(key, value + "\r");
    TwoPieces(key, value);
    TrimTrailingWhiteSpace(value, '\r');
  }

  /** `key=value` with no further `=` splits into the two pieces. */
  lemma TwoPieces(key: string, value: string)
    requires '=' !in key && '=' !in value
    ensures Split(key + "=" + value, '=') == [key, value]
  {
    assert key + "=" + value == key + ['='] + value;
    SplitAfterFirst(key, '=', value);
    SplitWithoutSeparator(value, '=');
  }

  /** Everything after a second `=` is dropped: the line reads as if it ended there. */
  lemma EnvLineSecondEquals(key: string, value: string, tail: string)
    requires '=' !in key && '=' !in value
    ensures EnvLineEntry(key + "=" + value + "=" + tail) == EnvLineEntry(key + "=" + value)
  {
    assert key + "=" + value + "=" + tail == key + ['='] + (value + ['='] + tail);
    SplitAfterFirst(key, '=', value + ['='] + tail);
    SplitAfterFirst(value, '=', tail);
    TwoPieces(key, value);
  }

  /** The non-empty check comes before trimming: a key of white space only is
      stored as the empty key. */
  lemma EnvLineBlankKey(key: string, value: string)
    requires key != "" && forall i :: 0 <= i < |key| ==> IsWhiteSpace(key[i])
    requires '=' !in value && value != ""
    ensures EnvLineEntry(key + "=" + value) == Some(("", Trim(value)))
  {
    assert '=' !in key by {
      forall i | 0 <= i < |key| ensures key[i] != '=' {
        assert IsWhiteSpace(key[i]);
      }
    }
    TwoPieces(key, value);
    TrimSpec(key);
  }

  /** A line whose value piece is empty (`KEY=` or `KEY==...`) contributes nothing. */
  lemma EnvLineNoValue(key: string, rest: string)
    requires '=' !in key && (rest == "" || rest[0] == '=')
    ensures EnvLineEntry(key + "=" + rest) == None
  {
    assert key + "=" + rest == key + ['='] + rest;
    SplitAfterFirst(key, '=', rest);
    SplitFirst(rest, '=');
  }

  /** A line starting with `=` has an empty key piece and contributes nothing. */
  lemma EnvLineNoKey(line: string)
    requires line != "" && line[0] == '='
    ensures EnvLineEntry(line) == None
  {
    SplitFirst(line, '=');
  }

  /** A line without `=` (a comment, a blank line) contributes nothing. */
  lemma EnvLineComment(line: string)
    requires '=' !in line
    ensures EnvLineEntry(line) == None
  {
    SplitWithoutSeparator(line, '=');
  }
}
