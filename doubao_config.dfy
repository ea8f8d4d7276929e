/**
 * Configuration of the Doubao client (crates/doubao/src/config.rs): a record
 * of strings whose `with_*` setters return a copy with one field replaced,
 * whose getters read a field back, and which builds endpoint URLs and the
 * WebSocket authorization value. Environment variables are a map argument.
 */
module DoubaoConfig {

  const DOUBAO_TTS_WS_BASE: string := "wss://openspeech.bytedance.com/api/v3/tts/bidirection"
  const DOUBAO_TTS_HTTP_V3_BASE: string := "https://openspeech.bytedance.com/api/v3/tts/unidirectional"
  const DOUBAO_TTS_WS_V3_UNI_BASE: string := "wss://openspeech.bytedance.com/api/v3/tts/unidirectional"
  const DOUBAO_HTTP_BASE: string := "https://ark.cn-beijing.volces.com/api/v3"

  const DEFAULT_RESOURCE_ID: string := "seed-tts-2.0"
  const DEFAULT_VOICE_TYPE: string := "zh_female_vv_uranus_bigtts"
  const DEFAULT_CLUSTER: string := "volcano_tts"
  const BEARER: string := "Bearer;"

  /** The process environment, as far as the defaults read it. */
  type Env = map<string, string>

  /** `std::env::var(name).unwrap_or_else(|_| fallback)`. */
  function EnvOr(env: Env, name: string, fallback: string): (v: string)
    ensures name in env ==> v == env[name]
    ensures name !in env ==> v == fallback
  {
    if name in env then env[name] else fallback
  }

  /**
   * `DoubaoConfig`. The two secrets are plain strings here; the getters of
   * the source are the field names (`c.appId` is `c.app_id()`).
   */
  datatype Config = Config(
    appId: string,
    apiKey: string,
    accessToken: string,
    resourceId: string,
    ttsWsBase: string,
    ttsWsV3UniBase: string,
    ttsHttpV3Base: string,
    httpBase: string,
    voiceType: string,
    cluster: string)
  {
    /** `with_app_id`: only the application id changes. */
    function WithAppId(v: string): (c: Config)
      ensures c.appId == v && c.(appId := appId) == this
    {
      this.(appId := v)
    }

    /** `with_api_key`: only the API key changes. */
    function WithApiKey(v: string): (c: Config)
      ensures c.apiKey == v && c.(apiKey := apiKey) == this
    {
      this.(apiKey := v)
    }

    /** `with_access_token`: only the access token changes. */
    function WithAccessToken(v: string): (c: Config)
      ensures c.accessToken == v && c.(accessToken := accessToken) == this
    {
      this.(accessToken := v)
    }

    /** `with_resource_id`: only the resource id changes. */
    function WithResourceId(v: string): (c: Config)
      ensures c.resourceId == v && c.(resourceId := resourceId) == this
    {
      this.(resourceId := v)
    }

    /** `with_tts_ws_base`: stored verbatim, trailing slashes included. */
    function WithTtsWsBase(v: string): (c: Config)
      ensures c.ttsWsBase == v && c.(ttsWsBase := ttsWsBase) == this
    {
      this.(ttsWsBase := v)
    }

    /** `with_tts_ws_v3_uni_base`: stored verbatim. */
    function WithTtsWsV3UniBase(v: string): (c: Config)
      ensures c.ttsWsV3UniBase == v && c.(ttsWsV3UniBase := ttsWsV3UniBase) == this
    {
      this.(ttsWsV3UniBase := v)
    }

    /** `with_tts_http_v3_base`: stored verbatim. */
    function WithTtsHttpV3Base(v: string): (c: Config)
      ensures c.ttsHttpV3Base == v && c.(ttsHttpV3Base := ttsHttpV3Base) == this
    {
      this.(ttsHttpV3Base := v)
    }

    /** `with_voice_type`: only the voice type changes. */
    function WithVoiceType(v: string): (c: Config)
      ensures c.voiceType == v && c.(voiceType := voiceType) == this
    {
      this.(voiceType := v)
    }

    /** `with_cluster`: only the cluster changes. */
    function WithCluster(v: string): (c: Config)
      ensures c.cluster == v && c.(cluster := cluster) == this
    {
      this.(cluster := v)
    }

    /**
     * `with_http_base`: the base with every trailing `/` removed; nothing
     * else changes.
     */
    function WithHttpBase(v: string): (c: Config)
      ensures c.httpBase == TrimEndSlashes(v) && c.(httpBase := httpBase) == this
      ensures c.httpBase == "" || c.httpBase[|c.httpBase| - 1] != '/'
    {
      this.(httpBase := TrimEndSlashes(v))
    }

    /** `authorization`: `"Bearer;"` followed by the API key, no space. */
    function Authorization(): (h: string)
      ensures |h| == |BEARER| + |apiKey|
      ensures h[..|BEARER|] == BEARER && h[|BEARER|..] == apiKey
    {
      BEARER + apiKey
    }

    /** `url`: the base followed directly by the path. */
    function Url(path: string): (u: string)
      ensures |u| == |httpBase| + |path|
      ensures u[..|httpBase|] == httpBase && u[|httpBase|..] == path
    {
      httpBase + path
    }
  }

  /** Whether every character of `s` is a `/`. */
  predicate AllSlashes(s: string) {
    forall i :: 0 <= i < |s| ==> s[i] == '/'
  }

  /**
   * `trim_end_matches('/')`: the longest prefix of `s` that does not end in
   * `/` and after which only slashes follow.
   */
  function TrimEndSlashes(s: string): (r: string)
    ensures |r| <= |s| && r == s[..|r|] && AllSlashes(s[|r|..])
    ensures r == "" || r[|r| - 1] != '/'
    decreases |s|
  {
    if |s| > 0 && s[|s| - 1] == '/' then TrimEndSlashes(s[..|s| - 1]) else s
  }

  /** A base that does not end in `/` is kept exactly. */
  lemma TrimKeepsUnslashed(s: string)
    requires s == "" || s[|s| - 1] != '/'
    ensures TrimEndSlashes(s) == s
  {
  }

  /** Trimming twice is trimming once. */
  lemma TrimIdempotent(s: string)
    ensures TrimEndSlashes(TrimEndSlashes(s)) == TrimEndSlashes(s)
  {
    TrimKeepsUnslashed(TrimEndSlashes(s));
  }

  /**
   * The trimmed base is unique: any split of `s` into a part not ending in
   * `/` followed by slashes only is the one `TrimEndSlashes` finds.
   */
  lemma {:induction false} TrimUnique(s: string, base: string, slashes: string)
    requires s == base + slashes && AllSlashes(slashes)
    requires base == "" || base[|base| - 1] != '/'
    ensures TrimEndSlashes(s) == base
    decreases |s|
  {
    if slashes == [] {
      assert s == base;
      TrimKeepsUnslashed(s);
    } else {
      assert s[|s| - 1] == slashes[|slashes| - 1] == '/';
      var shorter := slashes[..|slashes| - 1];
      assert s[..|s| - 1] == base + shorter;
      TrimUnique(s[..|s| - 1], base, shorter);
    }
  }

  /**
   * Endpoint URLs after `with_http_base`: the trimmed base then the path, so
   * a base given with trailing slashes yields the same URLs as without.
   */
  lemma UrlAfterWithHttpBase(c: Config, base: string, slashes: string, path: string)
    requires AllSlashes(slashes)
    ensures c.WithHttpBase(base + slashes).Url(path) == TrimEndSlashes(base) + path
    ensures c.WithHttpBase(base + slashes).Url(path) == c.WithHttpBase(base).Url(path)
  {
    var t := TrimEndSlashes(base);
    var rest := base[|t|..] + slashes;
    assert base + slashes == t + rest;
    assert AllSlashes(rest) by {
      forall i | 0 <= i < |rest| ensures rest[i] == '/' {
        if i < |base| - |t| {
          assert rest[i] == base[|t|..][i];
        } else {
          assert rest[i] == slashes[i - (|base| - |t|)];
        }
      }
    }
    TrimUnique(base + slashes, t, rest);
  }

  /**
   * `DoubaoConfig::default()` / `new()`: identifiers and secrets from the
   * environment (empty when unset), resource id, voice type, cluster and
   * HTTP base from the environment with fixed fallbacks, and the three TTS
   * bases fixed.
   */
  function Default(env: Env): (c: Config)
    ensures c.appId == EnvOr(env, "DOUBAO_APP_ID", "")
    ensures c.apiKey == EnvOr(env, "DOUBAO_API_KEY", "")
    ensures c.accessToken == EnvOr(env, "DOUBAO_ACCESS_TOKEN", "")
    ensures c.resourceId == EnvOr(env, "DOUBAO_RESOURCE_ID", DEFAULT_RESOURCE_ID)
    ensures c.httpBase == EnvOr(env, "DOUBAO_HTTP_BASE", DOUBAO_HTTP_BASE)
    ensures c.voiceType == EnvOr(env, "DOUBAO_VOICE_TYPE", DEFAULT_VOICE_TYPE)
    ensures c.cluster == EnvOr(env, "DOUBAO_CLUSTER", DEFAULT_CLUSTER)
    ensures c.ttsWsBase == DOUBAO_TTS_WS_BASE
    ensures c.ttsWsV3UniBase == DOUBAO_TTS_WS_V3_UNI_BASE
    ensures c.ttsHttpV3Base == DOUBAO_TTS_HTTP_V3_BASE
  {
    Config(
      EnvOr(env, "DOUBAO_APP_ID", ""),
      EnvOr(env, "DOUBAO_API_KEY", ""),
      EnvOr(env, "DOUBAO_ACCESS_TOKEN", ""),
      EnvOr(env, "DOUBAO_RESOURCE_ID", DEFAULT_RESOURCE_ID),
      DOUBAO_TTS_WS_BASE,
      DOUBAO_TTS_WS_V3_UNI_BASE,
      DOUBAO_TTS_HTTP_V3_BASE,
      EnvOr(env, "DOUBAO_HTTP_BASE", DOUBAO_HTTP_BASE),
      EnvOr(env, "DOUBAO_VOICE_TYPE", DEFAULT_VOICE_TYPE),
      EnvOr(env, "DOUBAO_CLUSTER", DEFAULT_CLUSTER))
  }

  /**
   * The default HTTP base is taken from the environment as it is: unlike
   * `with_http_base`, a trailing `/` there is kept.
   */
  lemma DefaultHttpBaseNotTrimmed(env: Env)
    requires "DOUBAO_HTTP_BASE" in env
    ensures Default(env).httpBase == env["DOUBAO_HTTP_BASE"]
    ensures var b := env["DOUBAO_HTTP_BASE"] + "/";
            Default(env["DOUBAO_HTTP_BASE" := b]).httpBase != Default(env).WithHttpBase(b).httpBase
  {
    var b := env["DOUBAO_HTTP_BASE"] + "/";
    assert b[|b| - 1] == '/';
  }
}
