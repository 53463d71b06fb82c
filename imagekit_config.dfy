/** The product service's ImageKit configuration, read once when the module loads:
    environment values are normalised (trimmed, one pair of outer quotes dropped), the
    URL endpoint is chosen from two variables, and loading fails naming every variable
    that is missing. The SDK client itself is not modelled; a successful load yields the
    three settings it would be built with. */
module ImageKitConfig {
  import opened Wrappers
  import opened Js

  const PublicKeyName := "IMAGEKIT_PUBLIC_KEY"
  const PrivateKeyName := "IMAGEKIT_PRIVATE_KEY"
  const UrlName := "IMAGEKIT_URL"
  const UrlEndpointName := "IMAGEKIT_URL_ENDPOINT"
  /** How the error names a missing endpoint: either variable would do. */
  const MissingUrlName := "IMAGEKIT_URL or IMAGEKIT_URL_ENDPOINT"

  predicate IsQuote(c: char)
  {
    c == '\'' || c == '"'
  }

  /** Whether `replace(/^['"]|['"]$/g, '')` deletes the character at `i`: a quote that
      is the first or the last character. Each alternative matches one character at an
      anchored position, so no character is matched twice. */
  predicate QuoteRemovedAt(t: string, i: nat)
    requires i < |t|
  {
    IsQuote(t[i]) && (i == 0 || i == |t| - 1)
  }

  /** The characters of `t` from position `from` on that the replacement keeps: the
      reference reading of the global replace, one position at a time. */
  function KeptFrom(t: string, from: nat): (r: string)
    requires from <= |t|
    ensures |r| <= |t| - from
    decreases |t| - from
  {
    if from == |t| then []
    else (if QuoteRemovedAt(t, from) then [] else [t[from]]) + KeptFrom(t, from + 1)
  }

  /** `t.replace(/^['"]|['"]$/g, '')`: drops a leading quote, then a trailing quote if
      one is left after it. */
  function StripOuterQuotes(t: string): (r: string)
    ensures |t| - 2 <= |r| <= |t|
    ensures t != [] && !IsQuote(t[0]) && !IsQuote(t[|t| - 1]) ==> r == t
    ensures (t == [] || !IsQuote(t[0])) ==> r == t[..|r|]
    ensures (t == [] || !IsQuote(t[|t| - 1])) ==> r == t[|t| - |r|..]
    ensures t != [] && IsQuote(t[0]) ==> 1 + |r| <= |t| && r == t[1..1 + |r|]
  {
    var front := if t != [] && IsQuote(t[0]) then t[1..] else t;
    if front != [] && IsQuote(front[|front| - 1]) then front[..|front| - 1] else front
  }

  /** What the replacement keeps of a string of two or more characters: the first and
      last characters unless they are quotes, and everything between them. */
  lemma KeptFromOuter(t: string)
    requires |t| >= 2
    ensures KeptFrom(t, 0) == (if IsQuote(t[0]) then [] else [t[0]]) + t[1..|t| - 1] +
                              (if IsQuote(t[|t| - 1]) then [] else [t[|t| - 1]])
  {
    var n := |t|;
    var firstKept: string := if IsQuote(t[0]) then [] else [t[0]];
    var lastKept: string := if IsQuote(t[n - 1]) then [] else [t[n - 1]];
    assert KeptFrom(t, n) == [];
    assert KeptFrom(t, n - 1) == lastKept;
    KeptMiddle(t, 1);
    assert KeptFrom(t, 0) == firstKept + KeptFrom(t, 1);
    assert firstKept + (t[1..n - 1] + lastKept) == firstKept + t[1..n - 1] + lastKept;
  }

  /** The same split for the two-step reading. */
  lemma StripOuterQuotesOuter(t: string)
    requires |t| >= 2
    ensures StripOuterQuotes(t) == (if IsQuote(t[0]) then [] else [t[0]]) + t[1..|t| - 1] +
                                   (if IsQuote(t[|t| - 1]) then [] else [t[|t| - 1]])
  {
    var n := |t|;
    var firstKept: string := if IsQuote(t[0]) then [] else [t[0]];
    var front := if IsQuote(t[0]) then t[1..] else t;
    assert front == firstKept + t[1..n - 1] + [t[n - 1]];
    assert front[|front| - 1] == t[n - 1];
    if IsQuote(t[n - 1]) {
      assert front[..|front| - 1] == firstKept + t[1..n - 1];
    }
  }

  /** The two-step reading agrees with the character-by-character reference. */
  lemma StripOuterQuotesIsReplace(t: string)
    ensures StripOuterQuotes(t) == KeptFrom(t, 0)
  {
    if |t| == 1 {
      assert KeptFrom(t, 1) == [];
    } else if |t| >= 2 {
      var outer := (if IsQuote(t[0]) then [] else [t[0]]) + t[1..|t| - 1] +
                   (if IsQuote(t[|t| - 1]) then [] else [t[|t| - 1]]);
      KeptFromOuter(t);
      StripOuterQuotesOuter(t);
      assert KeptFrom(t, 0) == outer;
      assert StripOuterQuotes(t) == outer;
    }
  }

  /** Between the first and the last character nothing is removed. */
  lemma {:induction false} KeptMiddle(t: string, from: nat)
    requires 1 <= from <= |t| - 1
    ensures KeptFrom(t, from) == t[from..|t| - 1] + KeptFrom(t, |t| - 1)
    decreases |t| - from
  {
    if from < |t| - 1 {
      KeptMiddle(t, from + 1);
      assert !QuoteRemovedAt(t, from);
      assert t[from..|t| - 1] == [t[from]] + t[from + 1..|t| - 1];
    }
  }

  /** `normalize(v)`: a string is trimmed and loses one leading and one trailing quote;
      anything else (an unset variable reads as `undefined`) is returned as it is. */
  function Normalize(v: Value): (r: Value)
    ensures !v.Str? ==> r == v
    ensures v.Str? ==> r.Str? && r.s == StripOuterQuotes(Trim(v.s))
  {
    match v
    case Str(s) => Str(StripOuterQuotes(Trim(s)))
    case _ => v
  }

  /** A string with no outer whitespace and no outer quotes is already normal. */
  lemma NormalizeKeepsPlainText(s: string)
    requires s != []
    requires !IsWhitespace(s[0]) && !IsWhitespace(s[|s| - 1])
    requires !IsQuote(s[0]) && !IsQuote(s[|s| - 1])
    ensures Normalize(Str(s)) == Str(s)
  {
    TrimMeaning(s);
  }

  /** The value of an environment variable: `undefined` when it is not set. */
  function EnvValue(env: map<string, string>, name: string): (v: Value)
    ensures v == Undefined || v.Str?
    ensures name in env <==> v.Str?
    ensures name in env ==> v.s == env[name]
  {
    if name in env then Str(env[name]) else Undefined
  }

  /** The normalised settings the module reads. */
  datatype Settings = Settings(publicKey: Value, privateKey: Value, url: Value, urlEndpoint: Value)

  function ReadSettings(env: map<string, string>): Settings
  {
    Settings(Normalize(EnvValue(env, PublicKeyName)), Normalize(EnvValue(env, PrivateKeyName)),
             Normalize(EnvValue(env, UrlName)), Normalize(EnvValue(env, UrlEndpointName)))
  }

  /** `IMAGEKIT_URL || IMAGEKIT_URL_ENDPOINT`. */
  function UrlEndpoint(s: Settings): (r: Value)
    ensures Truthy(s.url) ==> r == s.url
    ensures !Truthy(s.url) ==> r == s.urlEndpoint
    ensures Truthy(r) <==> Truthy(s.url) || Truthy(s.urlEndpoint)
  {
    OrElse(s.url, s.urlEndpoint)
  }

  /** A name's position in the fixed order of the error message. */
  function Position(name: string): nat
  {
    if name == PublicKeyName then 0 else if name == PrivateKeyName then 1 else 2
  }

  /** The `missing` list: one entry per falsy setting, in the order public key, private
      key, URL. */
  function MissingNames(s: Settings): (r: seq<string>)
    ensures PublicKeyName in r <==> !Truthy(s.publicKey)
    ensures PrivateKeyName in r <==> !Truthy(s.privateKey)
    ensures MissingUrlName in r <==> !Truthy(UrlEndpoint(s))
    ensures forall k :: 0 <= k < |r| ==> r[k] in {PublicKeyName, PrivateKeyName, MissingUrlName}
    ensures forall i, j :: 0 <= i < j < |r| ==> Position(r[i]) < Position(r[j])
  {
    var pub: seq<string> := if !Truthy(s.publicKey) then [PublicKeyName] else [];
    var priv: seq<string> := if !Truthy(s.privateKey) then [PrivateKeyName] else [];
    var url: seq<string> := if !Truthy(UrlEndpoint(s)) then [MissingUrlName] else [];
    assert PrivateKeyName != PublicKeyName && MissingUrlName != PublicKeyName && MissingUrlName != PrivateKeyName;
    pub + priv + url
  }

  /** `parts.join(sep)`. */
  function Join(parts: seq<string>, sep: string): (r: string)
    ensures parts == [] ==> r == ""
    ensures |parts| == 1 ==> r == parts[0]
  {
    if parts == [] then ""
    else if |parts| == 1 then parts[0]
    else parts[0] + sep + Join(parts[1..], sep)
  }

  /** The settings the ImageKit client is built with. */
  datatype Config = Config(publicKey: Value, privateKey: Value, urlEndpoint: Value)

  /** Loading the module: the client settings, or the message of the error thrown when a
      key or the endpoint is missing (the diagnostics printed beside it are left out). */
  function LoadConfig(env: map<string, string>): (r: Result<Config, string>)
    ensures var s := ReadSettings(env);
      (r.Err? <==> !Truthy(s.publicKey) || !Truthy(s.privateKey) || !Truthy(UrlEndpoint(s))) &&
      (r.Err? ==> r.error == "ImageKit config missing: " + Join(MissingNames(s), ", ") +
                             ". Check your .env variable names." && MissingNames(s) != []) &&
      (r.Ok? ==> r.value == Config(s.publicKey, s.privateKey, UrlEndpoint(s)) && Truthy(r.value.urlEndpoint))
  {
    var s := ReadSettings(env);
    var endpoint := UrlEndpoint(s);
    if !Truthy(s.publicKey) || !Truthy(s.privateKey) || !Truthy(endpoint) then
      var missing := MissingNames(s);
      assert missing != [] by {
        if !Truthy(s.publicKey) { assert PublicKeyName in missing; }
        else if !Truthy(s.privateKey) { assert PrivateKeyName in missing; }
        else { assert MissingUrlName in missing; }
      }
      Err("ImageKit config missing: " + Join(missing, ", ") + ". Check your .env variable names.")
    else
      Ok(Config(s.publicKey, s.privateKey, endpoint))
  }

  /** A variable that is set to nothing but whitespace counts as missing. */
  lemma BlankVariableIsMissing(env: map<string, string>)
    requires PublicKeyName in env
    requires forall i :: 0 <= i < |env[PublicKeyName]| ==> IsWhitespace(env[PublicKeyName][i])
    ensures LoadConfig(env).Err?
    ensures PublicKeyName in MissingNames(ReadSettings(env))
  {
    var v := env[PublicKeyName];
    assert Trim(v) == [] by { TrimMeaning(v); }
    assert ReadSettings(env).publicKey == Str([]);
  }

  /** With every variable set to plain text, loading succeeds with those values, the
      endpoint taken from `IMAGEKIT_URL`. */
  lemma PlainVariablesLoad(env: map<string, string>, pub: string, priv: string, url: string)
    requires pub != [] && priv != [] && url != []
    requires !IsWhitespace(pub[0]) && !IsWhitespace(pub[|pub| - 1]) && !IsQuote(pub[0]) && !IsQuote(pub[|pub| - 1])
    requires !IsWhitespace(priv[0]) && !IsWhitespace(priv[|priv| - 1]) && !IsQuote(priv[0]) && !IsQuote(priv[|priv| - 1])
    requires !IsWhitespace(url[0]) && !IsWhitespace(url[|url| - 1]) && !IsQuote(url[0]) && !IsQuote(url[|url| - 1])
    requires env == map[PublicKeyName := pub, PrivateKeyName := priv, UrlName := url]
    ensures LoadConfig(env) == Ok(Config(Str(pub), Str(priv), Str(url)))
  {
    NormalizeKeepsPlainText(pub);
    NormalizeKeepsPlainText(priv);
    NormalizeKeepsPlainText(url);
  }
}
