/**
 * DistributedJSON's C++ bridge to the Node.js diff script: quoting each JSON text as one
 * command-line argument, building the `node` command, and turning the script's output into
 * either the delta or the `std::runtime_error` the wrapper throws. Running the command is a
 * parameter `run`: the captured output, or None when `popen` fails.
 */
module JsonDiff {
  import opened Wrappers

  // ---------------------------------------------------------------------------
  // Quoting one argument
  // ---------------------------------------------------------------------------

  /** The characters `escapeArgument` puts a backslash in front of. */
  predicate Special(c: char) {
    c == '"' || c == '\\'
  }

  /** One input character as it appears between the quotes. */
  function EscapedChar(c: char): string {
    if Special(c) then ['\\', c] else [c]
  }

  /** The text between the quotes. */
  function Escaped(s: string): string {
    if s == [] then [] else EscapedChar(s[0]) + Escaped(s[1..])
  }

  /** `escapeArgument`: the escaped text in double quotes. */
  function Escape(s: string): string {
    "\"" + Escaped(s) + "\""
  }

  /** Escaping distributes over concatenation, so the loop may escape one character at a time. */
  lemma {:induction false} EscapedSnoc(s: string, c: char)
    ensures Escaped(s + [c]) == Escaped(s) + EscapedChar(c)
    decreases |s|
  {
    if s == [] {
      assert [] + [c] == [c];
      assert Escaped([c]) == EscapedChar(c) + Escaped([]);
    } else {
      assert (s + [c])[1..] == s[1..] + [c];
      EscapedSnoc(s[1..], c);
    }
  }

  /** The `for (char c : s)` loop. */
  method EscapeArgument(s: string) returns (escaped: string)
    ensures escaped == Escape(s)
  {
    escaped := "\"";
    for i := 0 to |s|
      invariant escaped == "\"" + Escaped(s[..i])
    {
      assert s[..i + 1] == s[..i] + [s[i]];
      EscapedSnoc(s[..i], s[i]);
      if s[i] == '"' || s[i] == '\\' {
        escaped := escaped + "\\";
      }
      escaped := escaped + [s[i]];
    }
    assert s[..|s|] == s;
    escaped := escaped + "\"";
  }

  /** The number of characters that get a backslash. */
  function CountSpecial(s: string): nat {
    if s == [] then 0 else (if Special(s[0]) then 1 else 0) + CountSpecial(s[1..])
  }

  /** The quoted argument is in double quotes and one backslash longer per special character. */
  lemma {:induction false} EscapeShape(s: string)
    ensures var r := Escape(s);
      |r| == |s| + 2 + CountSpecial(s) && r[0] == '"' && r[|r| - 1] == '"'
  {
    EscapedLength(s);
  }

  lemma {:induction false} EscapedLength(s: string)
    ensures |Escaped(s)| == |s| + CountSpecial(s)
    decreases |s|
  {
    if s != [] {
      EscapedLength(s[1..]);
    }
  }

  /** Every double quote between the outer quotes follows a backslash. */
  lemma {:induction false} EscapedSpecialsPaired(s: string)
    ensures var e := Escaped(s);
      forall j :: 0 <= j < |e| && e[j] == '"' ==> 0 < j && e[j - 1] == '\\'
    decreases |s|
  {
    if s != [] {
      EscapedSpecialsPaired(s[1..]);
      var head, e := EscapedChar(s[0]), Escaped(s);
      assert e == head + Escaped(s[1..]);
      forall j | 0 <= j < |e| && e[j] == '"' ensures 0 < j && e[j - 1] == '\\' {
        if j >= |head| {
          assert e[j] == Escaped(s[1..])[j - |head|];
          if j - |head| == 0 {
            assert false;
          }
        }
      }
    }
  }

  // ---------------------------------------------------------------------------
  // Reading a quoted argument back
  // ---------------------------------------------------------------------------

  /**
   * Read the text after an opening quote up to the closing one, taking the character after
   * each backslash literally; the argument and what follows the closing quote.
   */
  function ReadBody(t: string): Option<(string, string)>
    decreases |t|
  {
    if t == [] then None
    else if t[0] == '"' then Some(([], t[1..]))
    else if t[0] == '\\' then
      if |t| < 2 then None
      else match ReadBody(t[2..])
        case None => None
        case Some((x, rest)) => Some(([t[1]] + x, rest))
    else match ReadBody(t[1..])
      case None => None
      case Some((x, rest)) => Some(([t[0]] + x, rest))
  }

  /** Read a double-quoted argument from the front of `t`. */
  function ReadQuoted(t: string): Option<(string, string)> {
    if t != [] && t[0] == '"' then ReadBody(t[1..]) else None
  }

  lemma {:induction false} ReadBodyEscaped(s: string, rest: string)
    ensures ReadBody(Escaped(s) + "\"" + rest) == Some((s, rest))
    decreases |s|
  {
    var t := Escaped(s) + "\"" + rest;
    if s == [] {
      assert t == "\"" + rest;
    } else {
      var tail := Escaped(s[1..]) + "\"" + rest;
      ReadBodyEscaped(s[1..], rest);
      assert s == [s[0]] + s[1..];
      if Special(s[0]) {
        assert t == ['\\', s[0]] + tail;
        assert t[2..] == tail;
      } else {
        assert t == [s[0]] + tail;
        assert t[1..] == tail;
      }
    }
  }

  /** The quoted argument reads back as the original text, and reading stops right after it. */
  lemma EscapeRoundTrip(s: string, rest: string)
    ensures ReadQuoted(Escape(s) + rest) == Some((s, rest))
  {
    var t := Escape(s) + rest;
    assert t[1..] == Escaped(s) + "\"" + rest;
    ReadBodyEscaped(s, rest);
  }

  /** Different texts never quote the same way. */
  lemma EscapeInjective(s: string, other: string)
    requires Escape(s) == Escape(other)
    ensures s == other
  {
    EscapeRoundTrip(s, []);
    EscapeRoundTrip(other, []);
    assert Escape(s) + [] == Escape(s) && Escape(other) + [] == Escape(other);
  }

  // ---------------------------------------------------------------------------
  // Calling the script
  // ---------------------------------------------------------------------------

  /** The script `diff` runs when the caller names none. */
  const DefaultScript: string := "diff_wrapper.js"

  /** The command line: `node <script> "<A>" "<B>"`. */
  function DiffCommand(jsonA: string, jsonB: string, script: string): string {
    "node " + script + " " + Escape(jsonA) + " " + Escape(jsonB)
  }

  /** After `node <script> ` the two arguments read back in order, and nothing follows the second. */
  lemma DiffCommandArguments(jsonA: string, jsonB: string, script: string)
    ensures var c, head := DiffCommand(jsonA, jsonB, script), "node " + script + " ";
      |head| <= |c| && c[..|head|] == head
      && ReadQuoted(c[|head|..]) == Some((jsonA, " " + Escape(jsonB)))
      && ReadQuoted(Escape(jsonB)) == Some((jsonB, []))
  {
    var head, b := "node " + script + " ", Escape(jsonB);
    var c := DiffCommand(jsonA, jsonB, script);
    assert c == head + (Escape(jsonA) + (" " + b));
    assert c[|head|..] == Escape(jsonA) + (" " + b);
    EscapeRoundTrip(jsonA, " " + b);
    EscapeRoundTrip(jsonB, []);
    assert b + [] == b;
  }

  /** `exec` sends standard error to the captured output as well. */
  function Redirected(command: string): string {
    command + " 2>&1"
  }

  /** `result.rfind(prefix, 0) == 0`. */
  predicate StartsWith(s: string, prefix: string) {
    |prefix| <= |s| && s[..|prefix|] == prefix
  }

  /**
   * `diff`: the script's output, or the message of the `std::runtime_error` thrown when the
   * pipe cannot be opened or the output starts with "Error:".
   */
  function Diff(jsonA: string, jsonB: string, script: string, run: string -> Option<string>): Result<string, string> {
    match run(Redirected(DiffCommand(jsonA, jsonB, script)))
    case None => Err("popen() failed!")
    case Some(output) =>
      if StartsWith(output, "Error:") then Err("JavaScript Error: " + output) else Ok(output)
  }

  /** The output is returned unchanged exactly when it does not start with "Error:"; otherwise it is carried in the error. */
  lemma DiffOutcome(jsonA: string, jsonB: string, script: string, run: string -> Option<string>)
    ensures var out := run(Redirected(DiffCommand(jsonA, jsonB, script)));
      var r := Diff(jsonA, jsonB, script, run);
      && (r.Ok? <==> out.Some? && !StartsWith(out.value, "Error:"))
      && (r.Ok? ==> r.value == out.value)
      && (out.Some? && r.Err? ==> r.error == "JavaScript Error: " + out.value)
  {
  }
}
