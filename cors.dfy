/**
 * The CORS `origin` decision of the Fastify starter: every origin in the
 * development, local and test environments; elsewhere a missing or empty
 * origin, or one listed in the comma-separated `ALLOWED_ORIGINS`.
 */
module CorsOrigin {
  import opened Wrappers

  /** The arguments of the single `callback(err, allow)` call a decision makes. */
  datatype CorsCallback = CorsCallback(error: Option<string>, allow: bool)

  const NotAllowed := "Not allowed by CORS"

  /** `s.split(sep)` for a one-character separator: always at least one piece. */
  function Split(s: string, sep: char): (r: seq<string>)
    ensures |r| >= 1
    decreases |s|
  {
    if s == [] then [""]
    else
      var rest := Split(s[1..], sep);
      if s[0] == sep then [""] + rest else [[s[0]] + rest[0]] + rest[1..]
  }

  /** `parts.join(sep)` */
  function Join(parts: seq<string>, sep: char): string
    requires |parts| >= 1
  {
    if |parts| == 1 then parts[0] else parts[0] + [sep] + Join(parts[1..], sep)
  }

  predicate SeparatorFree(parts: seq<string>, sep: char) {
    forall i :: 0 <= i < |parts| ==> sep !in parts[i]
  }

  /** Splitting and joining again gives back the string, and no piece holds the separator. */
  lemma {:induction false} JoinSplit(s: string, sep: char)
    ensures Join(Split(s, sep), sep) == s
    ensures SeparatorFree(Split(s, sep), sep)
    decreases |s|
  {
    if s != [] {
      JoinSplit(s[1..], sep);
      var rest := Split(s[1..], sep);
      if s[0] == sep {
        assert Split(s, sep)[1..] == rest;
      } else {
        var r := Split(s, sep);
        if |rest| == 1 {
          assert r == [[s[0]] + rest[0]];
        } else {
          assert r[1..] == rest[1..];
          assert Join(rest, sep) == rest[0] + [sep] + Join(rest[1..], sep);
        }
        assert s == [s[0]] + s[1..];
      }
    }
  }

  /** Splitting a separator-free prefix onto a string extends its first piece. */
  lemma {:induction false} SplitPrefix(p: string, t: string, sep: char)
    requires sep !in p
    ensures Split(p + t, sep) == [p + Split(t, sep)[0]] + Split(t, sep)[1..]
    decreases |p|
  {
    if p != [] {
      assert (p + t)[1..] == p[1..] + t;
      SplitPrefix(p[1..], t, sep);
      assert p + Split(t, sep)[0] == [p[0]] + (p[1..] + Split(t, sep)[0]);
    } else {
      assert p + t == t;
      var r := Split(t, sep);
      assert p + r[0] == r[0];
      assert |r| >= 1;
      assert [r[0]] + r[1..] == r;
    }
  }

  /** Joining separator-free pieces and splitting again gives back the pieces. */
  lemma {:induction false} SplitJoin(parts: seq<string>, sep: char)
    requires |parts| >= 1 && SeparatorFree(parts, sep)
    ensures Split(Join(parts, sep), sep) == parts
    decreases |parts|
  {
    if |parts| == 1 {
      SplitPrefix(parts[0], [], sep);
      assert parts[0] + [] == parts[0];
    } else {
      assert SeparatorFree(parts[1..], sep) by {
        forall i | 0 <= i < |parts| - 1 ensures sep !in parts[1..][i] {
          assert parts[1..][i] == parts[i + 1];
        }
      }
      SplitJoin(parts[1..], sep);
      var t := [sep] + Join(parts[1..], sep);
      assert parts[0] + [sep] + Join(parts[1..], sep) == parts[0] + t;
      SplitPrefix(parts[0], t, sep);
      assert t[1..] == Join(parts[1..], sep);
      assert Split(t, sep) == [""] + parts[1..];
      assert parts[0] + "" == parts[0];
    }
  }

  /** `process.env.ALLOWED_ORIGINS?.split(',') || []` */
  function AllowedOrigins(allowedOriginsVar: Option<string>): (r: seq<string>)
    ensures allowedOriginsVar.None? ==> r == []
    ensures allowedOriginsVar.Some? ==> |r| >= 1 && Join(r, ',') == allowedOriginsVar.value && SeparatorFree(r, ',')
  {
    if allowedOriginsVar.Some? then JoinSplit(allowedOriginsVar.value, ','); Split(allowedOriginsVar.value, ',') else []
  }

  predicate IsDevelopmentEnv(env: string) {
    env == "development" || env == "local" || env == "test"
  }

  /** The `origin` option's callback, with `configs.env` and `ALLOWED_ORIGINS` as parameters. */
  function OriginDecision(env: string, origin: Option<string>, allowedOriginsVar: Option<string>): (r: CorsCallback)
    ensures r.allow <==> r.error.None?
    ensures !r.allow ==> r.error == Some(NotAllowed)
    ensures IsDevelopmentEnv(env) ==> r.allow
    ensures !IsDevelopmentEnv(env) ==>
      (r.allow <==> origin.None? || origin.value == "" || origin.value in AllowedOrigins(allowedOriginsVar))
  {
    if IsDevelopmentEnv(env) then CorsCallback(None, true)
    else if origin.None? || origin.value == "" || origin.value in AllowedOrigins(allowedOriginsVar) then
      CorsCallback(None, true)
    else CorsCallback(Some(NotAllowed), false)
  }

  /** With `ALLOWED_ORIGINS` unset, outside development only a missing or empty origin passes. */
  lemma UnsetAllowsOnlyMissing(env: string, origin: Option<string>)
    requires !IsDevelopmentEnv(env)
    ensures OriginDecision(env, origin, None).allow <==> origin.None? || origin.value == ""
  {
  }

  /** An origin holding a comma can never be allowed outside development. */
  lemma CommaOriginRejected(env: string, origin: string, allowedOriginsVar: Option<string>)
    requires !IsDevelopmentEnv(env) && ',' in origin
    ensures !OriginDecision(env, Some(origin), allowedOriginsVar).allow
  {
    if allowedOriginsVar.Some? {
      JoinSplit(allowedOriginsVar.value, ',');
    }
  }

  /**
   * With `ALLOWED_ORIGINS` written as the entries joined by commas, outside
   * development a present non-empty origin is allowed exactly when it is one
   * of the entries, compared without trimming.
   */
  lemma AllowedIffListed(env: string, origin: string, entries: seq<string>)
    requires !IsDevelopmentEnv(env) && origin != ""
    requires |entries| >= 1 && SeparatorFree(entries, ',')
    ensures OriginDecision(env, Some(origin), Some(Join(entries, ','))).allow <==> origin in entries
  {
    SplitJoin(entries, ',');
  }

  /** A space after the comma is part of the entry, so it does not match. */
  lemma NoTrimming(env: string)
    requires !IsDevelopmentEnv(env)
    ensures !OriginDecision(env, Some("https://a.io"), Some(Join(["https://b.io", " https://a.io"], ','))).allow
  {
    AllowedIffListed(env, "https://a.io", ["https://b.io", " https://a.io"]);
  }
}
