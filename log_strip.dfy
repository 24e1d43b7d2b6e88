/** The plain-text copy of every console line that livescore.js writes to
    its log file: each string argument loses its ANSI colour sequences
    (`/\x1b\[[0-9;]*m/g` replaced by nothing), other arguments are kept as
    they are, and the arguments are joined with single spaces. */
module LogStrip {
  import opened JsText

  const Esc: char := '\U{001B}'

  /** The characters `[0-9;]` allowed between `ESC [` and `m`. */
  predicate IsParam(c: char) { IsDigit(c) || c == ';' }

  predicate AllParams(s: string) { forall i :: 0 <= i < |s| ==> IsParam(s[i]) }

  /** The end of the longest run of parameter characters from `i`. */
  function ParamRunEnd(s: string, i: nat): (j: nat)
    requires i <= |s|
    ensures i <= j <= |s|
    ensures j == |s| || !IsParam(s[j])
    decreases |s| - i
  {
    if i < |s| && IsParam(s[i]) then ParamRunEnd(s, i + 1) else i
  }

  /** A run of parameters closed by a non-parameter is the longest one. */
  lemma {:induction false} ParamRunEndIs(s: string, i: nat, j: nat)
    requires i <= j <= |s|
    requires AllParams(s[i..j])
    requires j == |s| || !IsParam(s[j])
    ensures ParamRunEnd(s, i) == j
    decreases j - i
  {
    if i < j {
      assert IsParam(s[i..j][0]);
      assert s[i + 1..j] == s[i..j][1..];
      ParamRunEndIs(s, i + 1, j);
    }
  }

  /** The length of the colour sequence the pattern matches at the start of
      `s`, if any. `[0-9;]*` is greedy and `m` is not one of its characters,
      so backtracking cannot help: the sequence exists exactly when an `m`
      follows the longest parameter run. */
  function SgrLength(s: string): (n: nat)
    ensures n == 0 || 3 <= n <= |s|
  {
    if 2 <= |s| && s[0] == Esc && s[1] == '[' then
      var j := ParamRunEnd(s, 2);
      if j < |s| && s[j] == 'm' then j + 1 else 0
    else 0
  }

  /** `arg.replace(/\x1b\[[0-9;]*m/g, '')`: scanning from the left, every
      colour sequence is dropped and every other character kept. */
  function StripAnsi(s: string): (r: string)
    ensures |r| <= |s|
    decreases |s|
  {
    if s == [] then []
    else
      var n := SgrLength(s);
      if n > 0 then StripAnsi(s[n..]) else [s[0]] + StripAnsi(s[1..])
  }

  /** The colour sequence `ESC [ params m` (what chalk emits). */
  function Sgr(params: string): string {
    [Esc, '['] + params + "m"
  }

  /** A piece of console text: a visible character, or a colour sequence. */
  datatype Piece = Visible(c: char) | Colour(params: string)

  predicate WellFormed(p: Piece) {
    match p
    case Visible(c) => c != Esc
    case Colour(params) => AllParams(params)
  }

  /** The text a sequence of pieces spells. */
  function Render(pieces: seq<Piece>): string {
    if pieces == [] then ""
    else
      (match pieces[0] case Visible(c) => [c] case Colour(params) => Sgr(params))
      + Render(pieces[1..])
  }

  /** The characters a reader of the terminal sees. */
  function Shown(pieces: seq<Piece>): string {
    if pieces == [] then ""
    else
      (match pieces[0] case Visible(c) => [c] case Colour(_) => "")
      + Shown(pieces[1..])
  }

  /** A colour sequence at the front is dropped whole. */
  lemma StripSgr(params: string, rest: string)
    requires AllParams(params)
    ensures StripAnsi(Sgr(params) + rest) == StripAnsi(rest)
  {
    var s := Sgr(params) + rest;
    var j := 2 + |params|;
    assert s[2..j] == params;
    assert s[j] == 'm';
    ParamRunEndIs(s, 2, j);
    assert SgrLength(s) == j + 1;
    assert s[j + 1..] == rest;
  }

  /** A character other than ESC at the front is kept. */
  lemma StripVisible(c: char, rest: string)
    requires c != Esc
    ensures StripAnsi([c] + rest) == [c] + StripAnsi(rest)
  {
    assert ([c] + rest)[1..] == rest;
  }

  /** Stripping the text of well-formed pieces leaves exactly what the
      terminal shows: every colour sequence goes, every other character
      stays, in order. */
  lemma {:induction false} StripRendered(pieces: seq<Piece>)
    requires forall i :: 0 <= i < |pieces| ==> WellFormed(pieces[i])
    ensures StripAnsi(Render(pieces)) == Shown(pieces)
  {
    if pieces != [] {
      StripRendered(pieces[1..]);
      match pieces[0]
      case Visible(c) =>
        StripVisible(c, Render(pieces[1..]));
      case Colour(params) =>
        StripSgr(params, Render(pieces[1..]));
    }
  }

  /** A prefix without ESC is kept as it is. */
  lemma {:induction false} StripPlainPrefix(plain: string, rest: string)
    requires forall i :: 0 <= i < |plain| ==> plain[i] != Esc
    ensures StripAnsi(plain + rest) == plain + StripAnsi(rest)
  {
    if plain != [] {
      var c, tail := plain[0], plain[1..];
      assert plain == [c] + tail;
      assert plain + rest == [c] + (tail + rest);
      StripPlainPrefix(tail, rest);
      StripVisible(c, tail + rest);
    } else {
      assert plain + rest == rest;
    }
  }

  /** Text without ESC is left as it is. */
  lemma StripPlain(s: string)
    requires forall i :: 0 <= i < |s| ==> s[i] != Esc
    ensures StripAnsi(s) == s
  {
    StripPlainPrefix(s, []);
    assert s + [] == s;
  }

  /** Text between two colour sequences, followed by plain text, keeps
      only the text. */
  lemma StripAroundThen(message: string, close: string, value: string)
    requires AllParams(close)
    requires forall i :: 0 <= i < |message| ==> message[i] != Esc
    requires forall i :: 0 <= i < |value| ==> value[i] != Esc
    ensures StripAnsi(message + Sgr(close) + value) == message + value
  {
    StripPlainPrefix(message, Sgr(close) + value);
    assert message + Sgr(close) + value == message + (Sgr(close) + value);
    StripSgr(close, value);
    StripPlain(value);
  }

  /** One pass is not always enough: removing the inner sequence of
      `ESC ESC[m [m` leaves a new colour sequence behind. */
  lemma StripNotIdempotent()
    ensures StripAnsi([Esc] + Sgr("") + "[m") == Sgr("")
    ensures StripAnsi(Sgr("")) == ""
  {
    var s := [Esc] + Sgr("") + "[m";
    assert SgrLength(s) == 0 by { assert s[1] == Esc; }
    assert s[1..] == Sgr("") + "[m";
    StripSgr("", "[m");
    StripPlain("[m");
    StripSgr("", "");
  }

  /** An argument of `console.log`: a string, `null`/`undefined`, or any
      other value, which `join` shows through its string conversion. */
  datatype LogArg = Text(s: string) | Nullish | Value(shown: string)

  /** The `args.map(...)` step followed by `join`'s conversion: strings are
      stripped, other values are kept as they are (`join` writes null and
      undefined as empty). */
  function ArgText(arg: LogArg): string {
    match arg
    case Text(s) => StripAnsi(s)
    case Nullish => ""
    case Value(shown) => shown
  }

  function ArgTexts(args: seq<LogArg>): (texts: seq<string>)
    ensures |texts| == |args|
  {
    if args == [] then [] else ArgTexts(args[..|args| - 1]) + [ArgText(args[|args| - 1])]
  }

  /** The plain text written to the log file for one `console.log` call,
      before its newline. */
  function PlainText(args: seq<LogArg>): string {
    Join(ArgTexts(args), " ")
  }

  /** Each argument's text is its stripped string, or the value itself. */
  lemma {:induction false} ArgTextsAt(args: seq<LogArg>, i: nat)
    requires i < |args|
    ensures ArgTexts(args)[i] == ArgText(args[i])
  {
    if i < |args| - 1 {
      ArgTextsAt(args[..|args| - 1], i);
    }
  }

  /** Adding an argument adds a single space and its text. */
  lemma PlainTextPush(args: seq<LogArg>, arg: LogArg)
    requires args != []
    ensures PlainText(args + [arg]) == PlainText(args) + " " + ArgText(arg)
  {
    assert (args + [arg])[..|args|] == args;
  }

  /** A non-string argument is written unchanged, even if its text holds
      an escape sequence. */
  lemma ValueNotStripped(shown: string)
    ensures PlainText([Value(shown)]) == shown
  {
  }

  /** The usual call `console.log(chalk.x(caption) + value)` logs the label
      and the value without colours. */
  lemma PlainTextColoured(open: string, caption: string, close: string, value: string)
    requires AllParams(open) && AllParams(close)
    requires forall i :: 0 <= i < |caption| ==> caption[i] != Esc
    requires forall i :: 0 <= i < |value| ==> value[i] != Esc
    ensures PlainText([Text(Sgr(open) + caption + Sgr(close) + value)]) == caption + value
  {
    var coloured := Sgr(open) + caption + Sgr(close);
    assert coloured + value == Sgr(open) + (caption + Sgr(close) + value);
    StripSgr(open, caption + Sgr(close) + value);
    StripAroundThen(caption, close, value);
  }
}
