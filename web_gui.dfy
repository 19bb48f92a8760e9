/**
 * The screen that shows syncthing's own web GUI in a WebView (WebGuiActivity): which TLS
 * errors are overridden, which links stay inside, the proxy settings written before the
 * first load, and the Basic authorization header sent with it.
 */
module WebGui {
  import opened Wrappers
  import opened Strings
  import Utf8
  import Base64
  import opened SyncthingConfig

  // ---------------------------------------------------------------------------
  // WebView client

  const LOCAL_IP_PREFIX: string := "https://127.0.0.1"
  const LOCALHOST_PREFIX: string := "https://localhost"

  datatype SslDecision = Proceed | CancelLoad

  /** `onReceivedSslError`: the certificate error is ignored exactly for the two local prefixes. */
  function OnReceivedSslError(url: string): (d: SslDecision)
    ensures d == Proceed <==> StartsWith(url, LOCAL_IP_PREFIX) || StartsWith(url, LOCALHOST_PREFIX)
  {
    if StartsWith(url, LOCAL_IP_PREFIX) || StartsWith(url, LOCALHOST_PREFIX) then Proceed else CancelLoad
  }

  /**
   * The test looks at the text only: any host name that merely starts with a local name is
   * trusted too, and plain HTTP or an upper-case scheme is not.
   */
  lemma SslPrefixOnly()
    ensures OnReceivedSslError("https://127.0.0.1:8384/") == Proceed
    ensures OnReceivedSslError("https://localhost.example.com/") == Proceed
    ensures OnReceivedSslError("https://127.0.0.10/") == Proceed
    ensures OnReceivedSslError("http://127.0.0.1:8384/") == CancelLoad
    ensures OnReceivedSslError("HTTPS://localhost/") == CancelLoad
  {
    assert !StartsWith("http://127.0.0.1:8384/", LOCAL_IP_PREFIX) by { assert "http://127.0.0.1:8384/"[4] != LOCAL_IP_PREFIX[4]; }
    assert !StartsWith("http://127.0.0.1:8384/", LOCALHOST_PREFIX) by { assert "http://127.0.0.1:8384/"[4] != LOCALHOST_PREFIX[4]; }
    assert !StartsWith("HTTPS://localhost/", LOCAL_IP_PREFIX) by { assert "HTTPS://localhost/"[0] != LOCAL_IP_PREFIX[0]; }
    assert !StartsWith("HTTPS://localhost/", LOCALHOST_PREFIX) by { assert "HTTPS://localhost/"[0] != LOCALHOST_PREFIX[0]; }
  }

  datatype LinkDecision = StayInWebView | OpenExternally(url: string)

  /**
   * `shouldOverrideUrlLoading`: a link whose host equals the GUI's host (both possibly
   * null) is loaded in place; any other is handed to an external viewer.
   */
  function ShouldOverrideUrlLoading(url: string, host: Option<string>, guiHost: Option<string>): (d: LinkDecision)
    ensures d == StayInWebView <==> host == guiHost
    ensures d.OpenExternally? ==> d.url == url
  {
    if host == guiHost then StayInWebView else OpenExternally(url)
  }

  // ---------------------------------------------------------------------------
  // Authorization

  const BASIC_PREFIX: string := "Basic "

  /**
   * The value of the Authorization header: "Basic " and the Base64 text, without line
   * breaks, of the UTF-8 bytes of user name, ':' and API key (section 2 of RFC 7617).
   * The credentials can be read back from it.
   */
  function AuthorizationValue(userName: string, apiKey: string): (v: string)
    ensures StartsWith(v, BASIC_PREFIX)
    ensures var payload := Base64.Decode(v[|BASIC_PREFIX|..]);
            payload.Some? && Utf8.Decode(payload.value) == Some(userName + ":" + apiKey)
  {
    var bytes := Utf8.Encode(userName + ":" + apiKey);
    Base64.DecodeEncode(bytes);
    Utf8.DecodeEncode(userName + ":" + apiKey);
    var v := BASIC_PREFIX + Base64.Encode(bytes);
    assert v[|BASIC_PREFIX|..] == Base64.Encode(bytes);
    v
  }

  /** Only the header text tells credentials apart: different credentials give different headers. */
  lemma AuthorizationInjective(user1: string, key1: string, user2: string, key2: string)
    requires AuthorizationValue(user1, key1) == AuthorizationValue(user2, key2)
    ensures user1 + ":" + key1 == user2 + ":" + key2
  {
  }

  // ---------------------------------------------------------------------------
  // System properties

  /** The JVM's system properties. */
  class SystemProperties {
    var values: map<string, string>

    constructor (values: map<string, string>)
      ensures this.values == values
    {
      this.values := values;
    }
  }

  const PROXY_KEYS: set<string> :=
    {"http.proxyHost", "http.proxyPort", "https.proxyHost", "https.proxyPort", "http.nonProxyHosts", "https.nonProxyHosts"}

  /** HTTP and HTTPS both use `host` and `port` and both bypass `exclusionList`. */
  predicate ProxySettings(values: map<string, string>, host: string, port: string, exclusionList: string) {
    PROXY_KEYS <= values.Keys &&
    values["http.proxyHost"] == values["https.proxyHost"] == host &&
    values["http.proxyPort"] == values["https.proxyPort"] == port &&
    values["http.nonProxyHosts"] == values["https.nonProxyHosts"] == exclusionList
  }

  /**
   * The property writes of `setWebViewProxy`: HTTP and HTTPS get the same host, the same
   * port in decimal and the same exclusion list; no other property changes.
   */
  method SetWebViewProxy(properties: SystemProperties, host: string, port: int, exclusionList: string)
    modifies properties
    ensures properties.values.Keys == old(properties.values).Keys + PROXY_KEYS
    ensures ProxySettings(properties.values, host, IntToString(port), exclusionList)
    ensures forall k :: k in old(properties.values) && k !in PROXY_KEYS ==> properties.values[k] == old(properties.values)[k]
  {
    var portText := IntToString(port);
    var v := properties.values;
    v := v["http.proxyHost" := host];
    v := v["http.proxyPort" := portText];
    v := v["https.proxyHost" := host];
    v := v["https.proxyPort" := portText];
    v := v["http.nonProxyHosts" := exclusionList];
    v := v["https.nonProxyHosts" := exclusionList];
    properties.values := v;
  }

  /** The exclusion list passed before the first load: every local address goes direct. */
  const LOCAL_EXCLUSION_LIST: string := "localhost|0.0.0.0|127.*|[::1]"

  // ---------------------------------------------------------------------------
  // The activity

  /** A `loadUrl` call with its extra headers. */
  datatype Load = Load(url: string, headers: map<string, string>)

  class WebGuiActivity {
    const properties: SystemProperties
    var finishing: bool
    var caCertLoaded: bool
    /** What the WebView reports as its URL; null until a load starts. */
    var url: Option<string>
    var loads: seq<Load>

    constructor (properties: SystemProperties)
      ensures this.properties == properties
      ensures !finishing && !caCertLoaded && url == None && loads == []
    {
      this.properties := properties;
      finishing := false;
      caCertLoaded := false;
      url := None;
      loads := [];
    }

    /**
     * `loadCaCert` during `onCreate`: a missing certificate file finishes the activity with
     * nothing loaded; a file that is not a readable X.509 certificate throws.
     */
    method LoadCaCert(certExists: bool, certReadable: bool) returns (r: Result<(), ()>)
      modifies this
      ensures !certExists ==> r.Ok? && finishing && caCertLoaded == old(caCertLoaded)
      ensures certExists && !certReadable ==> r.Err? && finishing == old(finishing) && caCertLoaded == old(caCertLoaded)
      ensures certExists && certReadable ==> r.Ok? && caCertLoaded && finishing == old(finishing)
      ensures url == old(url) && loads == old(loads)
    {
      if !certExists {
        finishing := true;
        return Ok(());
      }
      if !certReadable {
        return Err(());
      }
      caCertLoaded := true;
      return Ok(());
    }

    /**
     * `onServiceStateChange`: when the service becomes ACTIVE and nothing was loaded yet,
     * the proxy is cleared for local addresses and the GUI is loaded with the
     * Authorization header; any other call changes nothing.
     */
    method OnServiceStateChange(state: ServiceState, webGuiUrl: string, userName: string, apiKey: string)
      modifies this, properties
      ensures state == Active && old(url).None? ==>
                url == Some(webGuiUrl) &&
                loads == old(loads) + [Load(webGuiUrl, map["Authorization" := AuthorizationValue(userName, apiKey)])] &&
                ProxySettings(properties.values, "", "0", LOCAL_EXCLUSION_LIST)
      ensures !(state == Active && old(url).None?) ==>
                url == old(url) && loads == old(loads) && properties.values == old(properties.values)
      ensures finishing == old(finishing) && caCertLoaded == old(caCertLoaded)
    {
      if state == Active && url.None? {
        SetWebViewProxy(properties, "", 0, LOCAL_EXCLUSION_LIST);
        assert IntToString(0) == "0";
        var headers := map["Authorization" := AuthorizationValue(userName, apiKey)];
        loads := loads + [Load(webGuiUrl, headers)];
        url := Some(webGuiUrl);
      }
    }
  }
}
