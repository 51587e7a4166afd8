/** The `.env` reader of the test framework (utils/env.py, load_env): a file of
    `KEY=VALUE` lines becomes a dictionary. The file is given by its text, or
    None when it does not exist. */
module Env {
  import opened Wrappers
  import opened Text

  /** A line that defines a variable: after stripping it is not blank, is not a
      `#` comment and holds an `=`. Every other line is skipped. */
  predicate IsEntry(raw: string) {
    var line := Strip(raw);
    line != "" && !StartsWith(line, "#") && '=' in line
  }

  /** Where the stripped line is split: its first `=`. */
  function EqualsAt(raw: string): (i: nat)
    requires IsEntry(raw)
    ensures i < |Strip(raw)| && Strip(raw)[i] == '='
    ensures '=' !in Strip(raw)[..i]
  {
    var line := Strip(raw);
    var i := IndexOf(line, '=');
    assert '=' !in line[..i] by {
      assert forall j :: 0 <= j < i ==> line[..i][j] == line[j];
    }
    i
  }

  /** The variable name: the stripped text before the first `=`. */
  function KeyOf(raw: string): string
    requires IsEntry(raw)
  {
    Strip(Strip(raw)[..EqualsAt(raw)])
  }

  /** The quoting load_env removes from a stripped value: double quotes at
      either end, then single quotes at either end. */
  function Unquote(v: string): string {
    StripOf(StripOf(v, Only('"')), Only('\''))
  }

  /** The value: everything after the first `=`, stripped and unquoted. */
  function ValueOf(raw: string): string
    requires IsEntry(raw)
  {
    Unquote(Strip(Strip(raw)[EqualsAt(raw) + 1..]))
  }

  /** One line read into the dictionary: an entry sets its key, a later entry
      for the same key replacing the earlier one; any other line changes nothing. */
  function Apply(env: map<string, string>, raw: string): map<string, string> {
    if IsEntry(raw) then env[KeyOf(raw) := ValueOf(raw)] else env
  }

  /** The dictionary the lines give, read first to last. */
  function EnvOf(lines: seq<string>): map<string, string>
    decreases |lines|
  {
    if |lines| == 0 then map[]
    else Apply(EnvOf(lines[..|lines| - 1]), lines[|lines| - 1])
  }

  /** What load_env returns: nothing for a missing file, else the dictionary of
      the file's lines (str.splitlines). */
  function EnvFromFile(file: Option<string>): map<string, string> {
    match file
    case None => map[]
    case Some(text) => EnvOf(SplitLines(text))
  }

  /** load_env: reads the lines in order, skipping blank lines, comments and
      lines without `=`, and sets each remaining key to its unquoted value. */
  method LoadEnv(file: Option<string>) returns (env: map<string, string>)
    ensures file == None ==> env == map[]
    ensures env == EnvFromFile(file)
  {
    env := map[];
    if file.None? {
      return;
    }
    var lines := SplitLines(file.value);
    var i := 0;
    while i < |lines|
      invariant 0 <= i <= |lines|
      invariant env == EnvOf(lines[..i])
    {
      assert lines[..i + 1][..i] == lines[..i];
      var line := Strip(lines[i]);
      if line == "" || StartsWith(line, "#") || '=' !in line {
        i := i + 1;
        continue;
      }
      var eq := EqualsAt(lines[i]);
      var k, v := line[..eq], line[eq + 1..];
      env := env[Strip(k) := StripOf(StripOf(Strip(v), Only('"')), Only('\''))];
      i := i + 1;
    }
    assert lines[..i] == lines;
  }

  /** A skipped line (blank, `#` comment, or without `=`) may stand anywhere in
      the file without changing the result. */
  lemma {:induction false} SkippedLineIgnored(before: seq<string>, raw: string, after: seq<string>)
    requires var line := Strip(raw); line == "" || StartsWith(line, "#") || '=' !in line
    ensures EnvOf(before + [raw] + after) == EnvOf(before + after)
    decreases |after|
  {
    if |after| == 0 {
      assert (before + [raw])[..|before|] == before;
      assert before + [raw] + after == before + [raw];
      assert before + after == before;
    } else {
      var init, last := after[..|after| - 1], after[|after| - 1];
      SkippedLineIgnored(before, raw, init);
      var with, without := before + [raw] + after, before + after;
      assert with[..|with| - 1] == before + [raw] + init && with[|with| - 1] == last;
      assert without[..|without| - 1] == before + init && without[|without| - 1] == last;
    }
  }

  /** The number of lines that define a variable. */
  function EntryCount(lines: seq<string>): (n: nat)
    ensures n <= |lines|
    decreases |lines|
  {
    if |lines| == 0 then 0
    else EntryCount(lines[..|lines| - 1]) + (if IsEntry(lines[|lines| - 1]) then 1 else 0)
  }

  /** Where a name in the dictionary comes from: some entry line names it. */
  lemma {:induction false} KeysFromEntries(lines: seq<string>, k: string)
    requires k in EnvOf(lines)
    ensures exists i :: 0 <= i < |lines| && IsEntry(lines[i]) && KeyOf(lines[i]) == k
    decreases |lines|
  {
    var init, last := lines[..|lines| - 1], lines[|lines| - 1];
    if IsEntry(last) && KeyOf(last) == k {
      assert IsEntry(lines[|lines| - 1]);
    } else {
      KeysFromEntries(init, k);
      var i :| 0 <= i < |init| && IsEntry(init[i]) && KeyOf(init[i]) == k;
      assert lines[i] == init[i];
    }
  }

  /** Once an entry names a key it stays in the dictionary, whatever follows. */
  lemma {:induction false} EntriesGiveKeys(lines: seq<string>, i: nat)
    requires i < |lines| && IsEntry(lines[i])
    ensures KeyOf(lines[i]) in EnvOf(lines)
    decreases |lines|
  {
    var init := lines[..|lines| - 1];
    if i < |lines| - 1 {
      assert init[i] == lines[i];
      EntriesGiveKeys(init, i);
    }
  }

  /** A name is defined exactly when some entry line names it. */
  lemma DefinedIff(lines: seq<string>, k: string)
    ensures k in EnvOf(lines) <==> exists i :: 0 <= i < |lines| && IsEntry(lines[i]) && KeyOf(lines[i]) == k
  {
    if k in EnvOf(lines) {
      KeysFromEntries(lines, k);
    }
    if exists i :: 0 <= i < |lines| && IsEntry(lines[i]) && KeyOf(lines[i]) == k {
      var i :| 0 <= i < |lines| && IsEntry(lines[i]) && KeyOf(lines[i]) == k;
      EntriesGiveKeys(lines, i);
    }
  }

  /** The last entry for a name decides its value. */
  lemma {:induction false} LastEntryWins(lines: seq<string>, i: nat)
    requires i < |lines| && IsEntry(lines[i])
    requires forall j :: i < j < |lines| && IsEntry(lines[j]) ==> KeyOf(lines[j]) != KeyOf(lines[i])
    ensures KeyOf(lines[i]) in EnvOf(lines) && EnvOf(lines)[KeyOf(lines[i])] == ValueOf(lines[i])
    decreases |lines|
  {
    var init := lines[..|lines| - 1];
    if i < |lines| - 1 {
      assert init[i] == lines[i];
      forall j | i < j < |init| && IsEntry(init[j])
        ensures KeyOf(init[j]) != KeyOf(init[i])
      {
        assert init[j] == lines[j];
      }
      LastEntryWins(init, i);
    }
  }

  /** There are never more names than entry lines. */
  lemma {:induction false} AtMostOneNamePerEntry(lines: seq<string>)
    ensures |EnvOf(lines)| <= EntryCount(lines)
    decreases |lines|
  {
    if |lines| > 0 {
      var init := lines[..|lines| - 1];
      AtMostOneNamePerEntry(init);
      var last := lines[|lines| - 1];
      if IsEntry(last) {
        var m := EnvOf(init);
        var k := KeyOf(last);
        if k in m {
          assert m[k := ValueOf(last)].Keys == m.Keys;
        } else {
          assert m[k := ValueOf(last)].Keys == m.Keys + {k};
        }
      }
    }
  }

  /** Names are trimmed and hold no `=`. */
  lemma KeyShape(raw: string)
    requires IsEntry(raw)
    ensures var k := KeyOf(raw); Strip(k) == k && '=' !in k
  {
    var piece := Strip(raw)[..EqualsAt(raw)];
    StripIdempotent(piece, Whitespace);
    var lo, hi := StripShape(piece, Whitespace);
    assert forall j :: lo <= j < hi ==> piece[lo..hi][j - lo] == piece[j];
  }

  /** Values neither start nor end with whitespace or a single quote. */
  lemma ValueShape(raw: string)
    requires IsEntry(raw)
    ensures Unpadded(ValueOf(raw), Only('\''))
  {
    var v := StripOf(Strip(Strip(raw)[EqualsAt(raw) + 1..]), Only('"'));
    StripEdges(v, Only('\''));
  }

  /** Every value in the dictionary has that shape. */
  lemma {:induction false} ValuesUnquoted(lines: seq<string>)
    ensures forall k :: k in EnvOf(lines) ==> Unpadded(EnvOf(lines)[k], Only('\''))
    decreases |lines|
  {
    if |lines| > 0 {
      ValuesUnquoted(lines[..|lines| - 1]);
      var last := lines[|lines| - 1];
      if IsEntry(last) {
        ValueShape(last);
      }
    }
  }

  /** A value that already reads back as itself: no whitespace and no quote
      of either kind at its ends. */
  predicate PlainValue(v: string) {
    Unpadded(v, Whitespace) && Unpadded(v, Only('"')) && Unpadded(v, Only('\''))
  }

  /** A name load_env can read back: trimmed, without `=`, not opening a comment. */
  predicate PlainKey(k: string) {
    Unpadded(k, Whitespace) && '=' !in k && !StartsWith(k, "#")
  }

  /** Writing `KEY=VALUE` and reading it back gives the name and the value,
      even when the value holds further `=` signs. */
  lemma EntryRoundTrip(k: string, v: string)
    requires PlainKey(k) && PlainValue(v)
    ensures var line := k + "=" + v;
      IsEntry(line) && KeyOf(line) == k && ValueOf(line) == v
  {
    var line := k + "=" + v;
    assert line[|k|] == '=';
    assert line[0] == if k == [] then '=' else k[0];
    assert line[|line| - 1] == if v == [] then '=' else v[|v| - 1];
    StripOfUnpadded(line, Whitespace);
    assert line[..|k|] == k && line[|k| + 1..] == v;
    assert !StartsWith(line, "#") by {
      if k == [] {
        assert line[0] == '=';
      } else {
        assert k[..1] == line[..1];
      }
    }
    assert IsEntry(line);
    IndexOfFirst(line, '=', |k|);
    StripOfUnpadded(k, Whitespace);
    StripOfUnpadded(v, Whitespace);
    StripOfUnpadded(v, Only('"'));
    StripOfUnpadded(v, Only('\''));
  }

  /** A one-line file holding such an entry reads back as that name and value. */
  lemma EntryFileRoundTrip(k: string, v: string)
    requires PlainKey(k) && PlainValue(v)
    requires forall j :: 0 <= j < |k| ==> !IsLineBreak(k[j])
    requires forall j :: 0 <= j < |v| ==> !IsLineBreak(v[j])
    ensures EnvFromFile(Some(k + "=" + v)) == map[k := v]
  {
    var line := k + "=" + v;
    EntryRoundTrip(k, v);
    forall j | 0 <= j < |line| ensures !IsLineBreak(line[j]) {
      if j < |k| {
        assert line[j] == k[j];
      } else if j > |k| {
        assert line[j] == v[j - |k| - 1];
      }
    }
    SplitLinesSingle(line);
    assert line != [];
    assert SplitLines(line) == [line];
    assert [line][..0] == [];
    assert EnvOf([line]) == Apply(map[], line);
  }
}
