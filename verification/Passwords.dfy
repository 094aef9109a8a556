/** Password generation, the strings passwords are rendered into, and the readers of those strings. */
module Passwords {
  import opened Objects
  import opened Api

  const LOWER := "abcdefghijklmnopqrstuvwxyz"
  const UPPER := "ABCDEFGHIJKLMNOPQRSTUVWXYZ"
  const DIGITS := "0123456789"
  const SYMBOLS := "!$^*-=+"
  const CHARSET := LOWER + UPPER + DIGITS + SYMBOLS

  function Head(draws: seq<Draw>): Draw {
    if draws == [] then Value(0) else draws[0]
  }

  function Tail(draws: seq<Draw>): seq<Draw> {
    if draws == [] then [] else draws[1..]
  }

  /** Character number n of the charset, told without the text of the charset (`LetterIsCharset` says it is the same).
      Numbers at or above the charset's length are never drawn; they count as zero. */
  function Letter(n: nat): char {
    if n < 26 then 'a' + n as char
    else if n < 52 then 'A' + (n - 26) as char
    else if n < 62 then '0' + (n - 52) as char
    else match n - 62
      case 0 => '!' case 1 => '$' case 2 => '^' case 3 => '*' case 4 => '-' case 5 => '=' case 6 => '+' case _ => 'a'
  }

  predicate Drawable(c: char) {
    'a' <= c <= 'z' || 'A' <= c <= 'Z' || '0' <= c <= '9' || c in {'!', '$', '^', '*', '-', '=', '+'}
  }

  /** The password a stream of random numbers yields; `None` when the random source fails. */
  function Generate(draws: seq<Draw>, length: nat): (p: Option<string>)
    decreases length
  {
    if length == 0 then Some("")
    else match Head(draws)
      case NoRandom => None
      case Value(n) => Prepend([Letter(n)], Generate(Tail(draws), length - 1))
  }

  function Prepend(prefix: string, rest: Option<string>): Option<string> {
    match rest case None => None case Some(s) => Some(prefix + s)
  }

  function OrEmpty(p: Option<string>): string {
    match p case Some(s) => s case None => ""
  }

  lemma PrependPrepend(a: string, b: string, rest: Option<string>)
    ensures Prepend(a, Prepend(b, rest)) == Prepend(a + b, rest)
  {
    if rest.Some? {
      assert a + (b + rest.value) == (a + b) + rest.value;
    }
  }

  lemma LowerLetters()
    ensures |LOWER| == |UPPER| == 26 && |DIGITS| == 10
    ensures forall i | 0 <= i < 26 :: LOWER[i] == 'a' + i as char
    ensures forall i | 0 <= i < 26 :: UPPER[i] == 'A' + i as char
    ensures forall i | 0 <= i < 10 :: DIGITS[i] == '0' + i as char
  {
  }

  lemma LetterIsCharset(n: nat)
    ensures |CHARSET| == 69
    ensures n < |CHARSET| ==> CHARSET[n] == Letter(n)
    ensures n >= |CHARSET| ==> CHARSET[0] == Letter(n)
  {
    LowerLetters();
    assert |SYMBOLS| == 7;
    assert n >= 62 && n < 69 ==> SYMBOLS[n - 62] == Letter(n);
    hide LOWER, UPPER, DIGITS, SYMBOLS;
  }

  /** Fills a buffer position by position, giving up when the random source fails. */
  method GenerateRandomPassword(draws: seq<Draw>, length: nat) returns (p: Option<string>)
    ensures p == Generate(draws, length)
    ensures p.Some? ==> |p.value| == length && forall c | c in p.value :: c in CHARSET
  {
    hide CHARSET;
    var result := new char[length](_ => 'a');
    var stream := draws;
    var i := 0;
    assert Prepend(result[..0], Generate(stream, length)) == Generate(stream, length) by {
      if Generate(stream, length).Some? {
        assert "" + Generate(stream, length).value == Generate(stream, length).value;
      }
    }
    while i < length
      invariant 0 <= i <= length
      invariant Generate(draws, length) == Prepend(result[..i], Generate(stream, length - i))
    {
      if Head(stream) == NoRandom {
        return None;
      }
      var n := Head(stream).n;
      ghost var before := result[..i];
      LetterIsCharset(n);
      result[i] := if n < |CHARSET| then CHARSET[n] else CHARSET[0];
      assert result[..i + 1] == before + [Letter(n)];
      PrependPrepend(before, [Letter(n)], Generate(Tail(stream), length - i - 1));
      stream := Tail(stream);
      i := i + 1;
    }
    assert result[..] == result[..length] + "";
    p := Some(result[..]);
    GeneratedShape(draws, length);
    forall c | c in p.value ensures c in CHARSET {
      DrawableIsCharset(c);
    }
  }

  predicate FromCharset(pass: string) { forall c | c in pass :: Drawable(c) }

  lemma NumberOf(c: char) returns (n: nat)
    requires Drawable(c)
    ensures n < 69 && Letter(n) == c
  {
    n := if 'a' <= c <= 'z' then (c - 'a') as nat
         else if 'A' <= c <= 'Z' then 26 + (c - 'A') as nat
         else if '0' <= c <= '9' then 52 + (c - '0') as nat
         else if c == '!' then 62 else if c == '$' then 63 else if c == '^' then 64 else if c == '*' then 65
         else if c == '-' then 66 else if c == '=' then 67 else 68;
  }

  lemma LetterIsDrawable(n: nat)
    ensures Drawable(Letter(n))
  {
  }

  /** The drawable characters are those of the charset. */
  lemma DrawableIsCharset(c: char)
    ensures Drawable(c) <==> c in CHARSET
  {
    hide CHARSET, Letter, Drawable;
    if Drawable(c) {
      var n := NumberOf(c);
      LetterIsCharset(n);
    }
    if c in CHARSET {
      var n :| 0 <= n < |CHARSET| && CHARSET[n] == c;
      LetterIsCharset(n);
      LetterIsDrawable(n);
    }
  }

  /** Generated passwords have the requested length and use only the charset. */
  lemma {:induction false} GeneratedShape(draws: seq<Draw>, length: nat)
    requires Generate(draws, length).Some?
    ensures |Generate(draws, length).value| == length && FromCharset(Generate(draws, length).value)
    decreases length
  {
    if length > 0 {
      GeneratedShape(Tail(draws), length - 1);
    }
  }

  /** A password is produced exactly when none of the numbers it draws fails. */
  lemma {:induction false} GenerateSucceeds(draws: seq<Draw>, length: nat)
    ensures Generate(draws, length).Some? <==> forall i | 0 <= i < length && i < |draws| :: draws[i].Value?
    decreases length
  {
    if length > 0 {
      GenerateSucceeds(Tail(draws), length - 1);
      if draws != [] {
        var rest := Tail(draws);
        assert forall i | 0 <= i < length - 1 && i < |rest| :: rest[i] == draws[i + 1];
        assert forall i | 1 <= i < length && i < |draws| :: draws[i] == rest[i - 1];
      }
    }
  }

  function Length(p: Purpose): (n: nat)
    ensures n > 0
  {
    match p
    case ForAdmin | ForNinegateAdmin | ForDexAdmin => 24
    case _ => 32
  }

  /** The password a run generates for a purpose. */
  function NewPassword(env: Env, p: Purpose): Option<string> {
    Generate(DrawsFor(env, p), Length(p))
  }

  lemma PasswordNotEmpty(env: Env, p: Purpose)
    requires NewPassword(env, p).Some?
    ensures NewPassword(env, p).value != "" && FromCharset(NewPassword(env, p).value)
  {
    GeneratedShape(DrawsFor(env, p), Length(p));
  }

  // ---- Rendering and reading ----------------------------------------------

  const URL_HEAD := "postgresql://root:"
  const CONN_HEAD := "host=postgresql port=5432 user=root password="

  const URL_TAIL := "postgresql:5432/ninegate?serverVersion=16"
  const CONN_TAIL := "dbname=ninegate sslmode=disable"

  function DatabaseUrlFor(pass: string): string {
    URL_HEAD + pass + "@" + URL_TAIL
  }

  function GlauthConnection(pass: string): string {
    CONN_HEAD + pass + " " + CONN_TAIL
  }

  /** A double-quoted value as the Dex configuration writes it. */
  function Quoted(pass: string): string { "\"" + pass + "\"" }

  function Until(s: string, stop: char): string {
    if s == "" || s[0] == stop then "" else [s[0]] + Until(s[1..], stop)
  }

  /** The password a URL consumer sees: the text between `root:` and the first `@`. */
  function ReadUrlPassword(url: string): Option<string> {
    if URL_HEAD <= url then Some(Until(url[|URL_HEAD|..], '@')) else None
  }

  /** The password a connection-string consumer sees: the text up to the next space. */
  function ReadConnectionPassword(conn: string): Option<string> {
    if CONN_HEAD <= conn then Some(Until(conn[|CONN_HEAD|..], ' ')) else None
  }

  /** Characters a one-line double-quoted YAML scalar may hold as they are, apart from quote and backslash: printable,
      and no line break (a line break would be folded). */
  predicate PlainChar(c: char) {
    || c == '\t' || ' ' <= c <= '~'
    || ('\U{A0}' <= c && c !in {'\U{2028}', '\U{2029}', '\U{FEFF}', '\U{FFFE}', '\U{FFFF}'})
  }

  /** The character a one-letter escape stands for. */
  function Unescaped(c: char): Option<char> {
    match c
    case '0' => Some('\0') case 'a' => Some('\U{7}') case 'b' => Some('\U{8}') case 't' => Some('\t')
    case 'n' => Some('\n') case 'v' => Some('\U{B}') case 'f' => Some('\U{C}') case 'r' => Some('\r')
    case 'e' => Some('\U{1B}') case ' ' => Some(' ') case '\t' => Some('\t') case '/' => Some('/')
    case '"' => Some('"') case '\\' => Some('\\')
    case 'N' => Some('\U{85}') case '_' => Some('\U{A0}') case 'L' => Some('\U{2028}') case 'P' => Some('\U{2029}')
    case _ => None
  }

  /** How many hexadecimal digits follow the letter of a numeric escape. */
  function HexLength(c: char): nat {
    match c case 'x' => 2 case 'u' => 4 case 'U' => 8 case _ => 0
  }

  function HexDigit(c: char): Option<nat> {
    if '0' <= c <= '9' then Some((c - '0') as nat)
    else if 'a' <= c <= 'f' then Some(10 + (c - 'a') as nat)
    else if 'A' <= c <= 'F' then Some(10 + (c - 'A') as nat)
    else None
  }

  function HexValue(s: string): Option<nat> {
    if s == "" then Some(0)
    else match (HexValue(s[..|s| - 1]), HexDigit(s[|s| - 1]))
      case (Some(high), Some(low)) => Some(16 * high + low)
      case _ => None
  }

  function CharOf(code: Option<nat>): Option<char> {
    match code
    case None => None
    case Some(n) => if n < 0xD800 || 0xE000 <= n < 0x11_0000 then Some(n as char) else None
  }

  /** A double-quoted scalar from behind its opening quote to its closing one, escapes resolved; `None` if the text is
      not such a scalar on one line. */
  function ReadScalar(s: string): Option<string>
    decreases |s|
  {
    if s == "" then None
    else if s[0] == '"' then Some("")
    else if s[0] == '\\' then ReadEscape(s[1..])
    else if PlainChar(s[0]) then Prepend([s[0]], ReadScalar(s[1..]))
    else None
  }

  function ReadEscape(s: string): Option<string>
    decreases |s|
  {
    if s == "" then None
    else
      var n := HexLength(s[0]);
      if |s| <= n then None
      else match if n > 0 then CharOf(HexValue(s[1..n + 1])) else Unescaped(s[0])
        case None => None
        case Some(c) => Prepend([c], ReadScalar(s[n + 1..]))
  }

  /** The text a YAML reader sees between the double quotes. */
  function ReadQuoted(s: string): Option<string> {
    if s != "" && s[0] == '"' then ReadScalar(s[1..]) else None
  }

  /** Reading up to a stop character recovers a text exactly when the text does not contain it. */
  lemma {:induction false} UntilRecovers(text: string, stop: char, rest: string)
    ensures Until(text + [stop] + rest, stop) == text <==> stop !in text
  {
    var s := text + [stop] + rest;
    if text != "" {
      if text[0] == stop {
        assert Until(s, stop) == "";
      } else {
        assert s[1..] == text[1..] + [stop] + rest;
        UntilRecovers(text[1..], stop, rest);
        assert Until(s, stop) == [text[0]] + Until(s[1..], stop);
        assert text == [text[0]] + text[1..];
        if Until(s, stop) == text {
          assert Until(s[1..], stop) == Until(s, stop)[1..] == text[1..];
        }
      }
    }
  }

  lemma UrlBody(pass: string)
    ensures var url := DatabaseUrlFor(pass); URL_HEAD <= url && url[|URL_HEAD|..] == pass + ['@'] + URL_TAIL
  {
    hide URL_HEAD, URL_TAIL;
  }

  lemma ConnectionBody(pass: string)
    ensures var conn := GlauthConnection(pass); CONN_HEAD <= conn && conn[|CONN_HEAD|..] == pass + [' '] + CONN_TAIL
  {
    hide CONN_HEAD, CONN_TAIL;
  }

  /** A password survives the database URL exactly when it has no `@`; overrides are unchecked, so this is sharp. */
  lemma UrlRoundTrip(pass: string)
    ensures ReadUrlPassword(DatabaseUrlFor(pass)) == Some(pass) <==> '@' !in pass
  {
    UrlBody(pass);
    hide DatabaseUrlFor, URL_HEAD, URL_TAIL;
    UntilRecovers(pass, '@', URL_TAIL);
  }

  /** A password survives the Glauth connection string exactly when it has no space. */
  lemma ConnectionRoundTrip(pass: string)
    ensures ReadConnectionPassword(GlauthConnection(pass)) == Some(pass) <==> ' ' !in pass
  {
    ConnectionBody(pass);
    hide GlauthConnection, CONN_HEAD, CONN_TAIL;
    UntilRecovers(pass, ' ', CONN_TAIL);
  }

  /** What stands for itself in a double-quoted scalar. */
  predicate Literal(text: string) { forall c | c in text :: PlainChar(c) && c != '"' && c != '\\' }

  /** A scalar yields fewer characters than it is written with; one less, for the closing quote, only if it is
      literal. */
  lemma {:induction false} ScalarShrinks(s: string)
    requires ReadScalar(s).Some?
    ensures var x := ReadScalar(s).value; |x| < |s| && (|x| + 1 == |s| ==> Literal(x))
    decreases |s|
  {
    hide HexValue, CharOf, Unescaped, PlainChar;
    if s[0] == '\\' {
      ScalarShrinks(s[1..][HexLength(s[1]) + 1..]);
    } else if s[0] != '"' {
      ScalarShrinks(s[1..]);
    }
  }

  lemma {:induction false} LiteralReads(text: string)
    requires Literal(text)
    ensures ReadScalar(text + "\"") == Some(text)
  {
    hide PlainChar, ReadEscape;
    var s := text + "\"";
    if text != "" {
      assert s[0] == text[0] && text[0] in text && s[1..] == text[1..] + "\"";
      LiteralReads(text[1..]);
      assert text == [text[0]] + text[1..];
    }
  }

  /** A password survives the quoted Dex field exactly when every character stands for itself: no double quote, no
      backslash, no control character and no line break. */
  lemma QuotedRoundTrip(pass: string)
    ensures ReadQuoted(Quoted(pass)) == Some(pass) <==> Literal(pass)
  {
    hide ReadScalar, Literal;
    assert Quoted(pass)[1..] == pass + "\"";
    if Literal(pass) {
      LiteralReads(pass);
    }
    if ReadScalar(pass + "\"") == Some(pass) {
      ScalarShrinks(pass + "\"");
    }
  }

  /** Nothing a password is drawn from is special in any of the three renderings. */
  lemma CharsetIsHarmless(c: char)
    requires Drawable(c)
    ensures c != '@' && c != ' ' && Literal([c])
  {
  }

  /** Every generated password survives all three renderings. */
  lemma GeneratedRoundTrips(draws: seq<Draw>, length: nat)
    requires Generate(draws, length).Some?
    ensures var p := Generate(draws, length).value;
            && |p| == length && FromCharset(p)
            && ReadUrlPassword(DatabaseUrlFor(p)) == Some(p)
            && ReadConnectionPassword(GlauthConnection(p)) == Some(p)
            && ReadQuoted(Quoted(p)) == Some(p)
  {
    GeneratedShape(draws, length);
    CharsetRoundTrips(Generate(draws, length).value);
  }

  /** So does every other text over the charset. */
  lemma CharsetRoundTrips(p: string)
    requires FromCharset(p)
    ensures ReadUrlPassword(DatabaseUrlFor(p)) == Some(p)
    ensures ReadConnectionPassword(GlauthConnection(p)) == Some(p)
    ensures ReadQuoted(Quoted(p)) == Some(p)
  {
    forall c | c in p ensures c != '@' && c != ' ' && Literal([c]) {
      CharsetIsHarmless(c);
    }
    assert Literal(p) by {
      forall c | c in p ensures PlainChar(c) && c != '"' && c != '\\' {
        assert c in [c];
      }
    }
    UrlRoundTrip(p);
    ConnectionRoundTrip(p);
    QuotedRoundTrip(p);
  }
}
