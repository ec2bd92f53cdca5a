/** The REST API client (WellPumpAPIClient): its configuration, the link to
    the server with its connection test and backoff, and a 20-slot
    store-and-forward buffer for aggregated records that could not be sent.
    Each request's HTTP status code is an input; the JSON payloads, headers
    and TLS setup are not modelled. */
module ApiClient {
  import opened Text
  import opened DataCollector
  import opened EventDetector
  import opened Delivery

  const BufferSize: nat := 20
  const ConnectionTestInterval: nat := 30000
  const RetryDelay: nat := 5000
  const DefaultMaxRetries: nat := 3
  /** Timestamps above this are read as Unix seconds, anything else as millis(). */
  const UnixThreshold: nat := 1600000000

  /** APIConfig. */
  datatype ApiConfig = ApiConfig(baseURL: string, apiKey: string, useHttps: bool, verifyCertificate: bool)

  /** formatTimestamp: Unix seconds become milliseconds (in 64-bit arithmetic,
      which cannot overflow for a 32-bit input); a millis() value means the
      clock was never synchronised and is reported as 0. */
  function FormatTimestamp(timestamp: nat): (s: string)
    requires timestamp < TimeModulus
    ensures forall i :: 0 <= i < |s| ==> IsDigit(s[i])
    ensures ParseDecimal(s) == if timestamp > UnixThreshold then timestamp * 1000 else 0
    ensures s == "0" <==> timestamp <= UnixThreshold
  {
    if timestamp > UnixThreshold then
      var ms := timestamp * 1000;
      ParseDecimalString(ms);
      DecimalStringZero(ms);
      DecimalString(ms)
    else
      ParseDecimalString(0);
      DecimalString(0)
  }

  /** Two synchronised timestamps are reported alike only when they are equal. */
  lemma FormatTimestampInjective(t1: nat, t2: nat)
    requires UnixThreshold < t1 < TimeModulus && UnixThreshold < t2 < TimeModulus
    requires FormatTimestamp(t1) == FormatTimestamp(t2)
    ensures t1 == t2
  {
  }

  /** makeRequest's verdict: it needs an HTTP client, only POST and GET are
      sent, and the reply must be 200 or 201. */
  function MakeRequest(hasHttpClient: bool, httpMethod: string, code: int): (ok: bool)
    ensures ok ==> httpMethod == "POST" || httpMethod == "GET"
    ensures ok <==> hasHttpClient && (httpMethod == "POST" || httpMethod == "GET") && Succeeded(code)
  {
    if !hasHttpClient then false
    else if httpMethod == "POST" || httpMethod == "GET" then Succeeded(code)
    else false
  }

  /** The API client's delays: 5, 10, 20, 40, then 80 seconds; the five-minute
      cap is never reached. */
  lemma RetryDelays(retryCount: nat)
    ensures Backoff(RetryDelay, retryCount) in {5000, 10000, 20000, 40000, 80000}
    ensures Backoff(RetryDelay, retryCount) == RetryDelay * Pow2(Min(retryCount, 4))
    ensures retryCount >= 4 ==> Backoff(RetryDelay, retryCount) == 80000
  {
    assert Pow2(1) == 2 && Pow2(2) == 4 && Pow2(3) == 8 && Pow2(4) == 16;
  }

  class Client {
    var baseURL: string
    var apiKey: string
    var deviceName: string
    var location: string
    var useHttps: bool
    var verifyCertificate: bool
    /** Whether httpClient is non-null. */
    var hasHttpClient: bool
    var connected: bool
    var initialized: bool
    var lastConnectionTest: nat
    var lastRetryTime: nat
    var retryCount: nat
    var maxRetries: nat
    const buffer: SlotBuffer

    ghost function LinkState(): Link
      reads this
    {
      Link(initialized, connected, hasHttpClient, lastConnectionTest, lastRetryTime, retryCount)
    }

    ghost function Snapshot(): Uplink
      reads this, buffer, buffer.slots
    {
      Uplink(LinkState(), buffer.State())
    }

    ghost predicate Valid()
      reads this, buffer, buffer.slots
    {
      LinkValid(LinkState()) && buffer.Valid() && buffer.size == BufferSize
    }

    constructor (config: ApiConfig, device: string, loc: string)
      ensures Valid() && fresh(buffer) && fresh(buffer.slots)
      ensures baseURL == config.baseURL && apiKey == config.apiKey && deviceName == device && location == loc
      ensures useHttps == config.useHttps && verifyCertificate == config.verifyCertificate
      ensures LinkState() == Link(false, false, false, 0, 0, 0) && maxRetries == DefaultMaxRetries
      ensures buffer.State() == Empty(BufferSize)
    {
      baseURL := config.baseURL;
      apiKey := config.apiKey;
      deviceName := device;
      location := loc;
      useHttps := config.useHttps;
      verifyCertificate := config.verifyCertificate;
      hasHttpClient := false;
      connected := false;
      initialized := false;
      lastConnectionTest := 0;
      lastRetryTime := 0;
      retryCount := 0;
      maxRetries := DefaultMaxRetries;
      buffer := new SlotBuffer(BufferSize);
    }

    /** validateConfiguration: the API key may be empty. */
    function ValidateConfiguration(): (ok: bool)
      reads this
      ensures ok <==> baseURL != [] && deviceName != [] && location != []
    {
      |baseURL| > 0 && |deviceName| > 0 && |location| > 0
    }

    function GetRetryDelay(): (d: nat)
      reads this
      ensures d == Backoff(RetryDelay, retryCount)
      ensures d in {5000, 10000, 20000, 40000, 80000}
    {
      RetryDelays(retryCount);
      Backoff(RetryDelay, retryCount)
    }

    function GetConnectionStatus(): (s: string)
      reads this, buffer
      ensures s == ConnectionStatus(initialized, connected, buffer.count, retryCount, maxRetries)
    {
      ConnectionStatus(initialized, connected, buffer.count, retryCount, maxRetries)
    }

    /** testConnection, with millis() as `now` and the health check's code as `code`. */
    method TestConnection(now: nat, code: int) returns (up: bool)
      requires Valid() && now < TimeModulus
      modifies this`connected, this`lastConnectionTest, this`retryCount
      ensures Valid()
      ensures Probed(LinkState(), up) == Probe(old(LinkState()), now, code, ConnectionTestInterval)
    {
      if !hasHttpClient {
        return false;
      }
      if Elapsed(now, lastConnectionTest) < ConnectionTestInterval {
        return connected;
      }
      connected := code == StatusOk;
      lastConnectionTest := now;
      if connected {
        retryCount := 0;
      }
      up := connected;
    }

    /** cleanupHTTPClient and the link going down. */
    method Disconnect()
      requires Valid()
      modifies this`hasHttpClient, this`connected
      ensures Valid() && !hasHttpClient && !connected
    {
      hasHttpClient := false;
      connected := false;
    }

    /** begin: a second call succeeds at once; an invalid configuration fails
        and leaves the client uninitialised; otherwise the HTTP client is set up,
        the client is initialised and the connection test decides the result. */
    method Begin(now: nat, code: int) returns (ok: bool)
      requires Valid() && now < TimeModulus
      modifies this`hasHttpClient, this`initialized, this`connected, this`lastConnectionTest, this`retryCount
      ensures Valid()
      ensures old(initialized) ==> ok && LinkState() == old(LinkState())
      ensures !old(initialized) && !ValidateConfiguration() ==> !ok && LinkState() == old(LinkState())
      ensures !old(initialized) && ValidateConfiguration() ==>
                Probed(LinkState(), ok) == Probe(old(LinkState()).(initialized := true, hasHttpClient := true), now, code, ConnectionTestInterval)
    {
      if initialized {
        return true;
      }
      if !ValidateConfiguration() {
        return false;
      }
      hasHttpClient := true;
      initialized := true;
      ok := TestConnection(now, code);
    }

    /** setCredentials: new server settings; an initialised client is
        disconnected and must be begun again. */
    method SetCredentials(config: ApiConfig)
      requires Valid()
      modifies this`baseURL, this`apiKey, this`useHttps, this`verifyCertificate
      modifies this`hasHttpClient, this`connected, this`initialized
      ensures Valid()
      ensures baseURL == config.baseURL && apiKey == config.apiKey
      ensures useHttps == config.useHttps && verifyCertificate == config.verifyCertificate
      ensures old(initialized) ==> !initialized && !connected && !hasHttpClient
      ensures !old(initialized) ==> LinkState() == old(LinkState())
    {
      baseURL := config.baseURL;
      apiKey := config.apiKey;
      useHttps := config.useHttps;
      verifyCertificate := config.verifyCertificate;
      if initialized {
        Disconnect();
        initialized := false;
      }
    }

    /** sendSensorData: without a link the record is buffered; otherwise it is
        posted, a success resets the retry count and a failure buffers it. */
    method SendSensorData(data: AggregatedData, now: nat, code: int) returns (ok: bool)
      requires Valid()
      modifies this`retryCount, buffer`index, buffer`count, buffer.slots
      ensures Valid()
      ensures ok <==> old(initialized && connected) && Succeeded(code)
      ensures ok ==> buffer.State() == old(buffer.State()) && retryCount == 0
      ensures !ok ==> buffer.State() == Added(old(buffer.State()), data, now) && retryCount == old(retryCount)
    {
      if !initialized || !connected {
        buffer.Add(data, now);
        return false;
      }
      var posted := MakeRequest(hasHttpClient, "POST", code);
      if posted {
        retryCount := 0;
        return true;
      } else {
        buffer.Add(data, now);
        return false;
      }
    }

    /** sendEvent: posted only over a live link, never buffered. */
    method SendEvent(event: Event, code: int) returns (ok: bool)
      requires Valid()
      ensures ok <==> initialized && connected && Succeeded(code)
    {
      if !initialized || !connected {
        return false;
      }
      ok := MakeRequest(hasHttpClient, "POST", code);
    }

    /** processBuffer (also flushBuffer). */
    method ProcessBuffer(codes: seq<int>) returns (allSuccess: bool)
      requires Valid()
      modifies buffer`count, buffer.slots
      ensures Valid()
      ensures var f := Processed(old(buffer.State()), connected, codes);
              buffer.State() == f.next && allSuccess == f.allSuccess
    {
      var sent;
      allSuccess, sent := buffer.Process(connected, codes);
    }

    /** update, with millis() as `now`. */
    method Update(now: nat, rs: Replies)
      requires Valid() && now < TimeModulus
      modifies this`connected, this`lastConnectionTest, this`retryCount, this`lastRetryTime
      modifies buffer`count, buffer.slots
      ensures Valid()
      ensures Snapshot() == Delivery.Update(old(Snapshot()), now, rs, ConnectionTestInterval, RetryDelay)
    {
      if !initialized {
        return;
      }
      if !connected && Elapsed(now, lastRetryTime) > GetRetryDelay() {
        var up := TestConnection(now, rs.probe);
        if up {
          var flushed := ProcessBuffer(rs.reconnectFlush);
        } else {
          retryCount := (retryCount + 1) % RetryModulus;
          lastRetryTime := now;
        }
      }
      ghost var mid := Snapshot();
      assert mid == Delivery.Reconnect(old(Snapshot()), now, rs, ConnectionTestInterval, RetryDelay);
      if connected && buffer.count > 0 {
        var flushed := ProcessBuffer(rs.periodicFlush);
      }
    }
  }
}
