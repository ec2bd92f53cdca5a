/** The MongoDB Data API client (WellPumpMongoClient): its configuration,
    the link to the Data API with its connection test and backoff, and a
    10-slot store-and-forward buffer for aggregated records that could not be
    written. Each request's HTTP status code is an input; the insertOne and
    findOne documents and their serialisation are not modelled. */
module MongoClient {
  import opened Text
  import opened DataCollector
  import opened EventDetector
  import opened Delivery

  const BufferSize: nat := 10
  const ConnectionTestInterval: nat := 300000
  const RetryDelay: nat := 30000
  const DefaultMaxRetries: nat := 3
  const SensorCollection: string := "sensor_data"
  const EventCollection: string := "events"

  /** formatTimestamp: the timestamp's decimal text, unchanged. */
  function FormatTimestamp(timestamp: nat): (s: string)
    ensures forall i :: 0 <= i < |s| ==> IsDigit(s[i])
    ensures ParseDecimal(s) == timestamp
  {
    ParseDecimalString(timestamp);
    DecimalString(timestamp)
  }

  /** Different timestamps are written differently. */
  lemma FormatTimestampInjective(t1: nat, t2: nat)
    requires FormatTimestamp(t1) == FormatTimestamp(t2)
    ensures t1 == t2
  {
  }

  /** insertDocument's verdict: it needs an HTTP client and a 201 or 200 reply. */
  function InsertDocument(hasHttpClient: bool, code: int): (ok: bool)
    ensures ok <==> hasHttpClient && Succeeded(code)
  {
    if !hasHttpClient then false else code == StatusCreated || code == StatusOk
  }

  /** The MongoDB client's delays: 30 s, 1, 2 and 4 minutes, then the
      five-minute cap from the fourth failure on. */
  lemma RetryDelays(retryCount: nat)
    ensures Backoff(RetryDelay, retryCount) in {30000, 60000, 120000, 240000, 300000}
    ensures retryCount < 4 ==> Backoff(RetryDelay, retryCount) == RetryDelay * Pow2(retryCount)
    ensures retryCount >= 4 <==> Backoff(RetryDelay, retryCount) == MaxRetryDelay
  {
    assert Pow2(1) == 2 && Pow2(2) == 4 && Pow2(3) == 8 && Pow2(4) == 16;
  }

  class Client {
    var mongoURL: string
    var apiKey: string
    var dataSource: string
    var database: string
    var sensorCollection: string
    var eventCollection: string
    var deviceName: string
    var location: string
    /** Whether httpClient is non-null. */
    var hasHttpClient: bool
    var connected: bool
    var initialized: bool
    var lastConnectionTest: nat
    var lastRetryTime: nat
    var retryCount: nat
    var maxRetries: nat
    const buffer: SlotBuffer

    ghost function LinkState(): Link
      reads this
    {
      Link(initialized, connected, hasHttpClient, lastConnectionTest, lastRetryTime, retryCount)
    }

    ghost function Snapshot(): Uplink
      reads this, buffer, buffer.slots
    {
      Uplink(LinkState(), buffer.State())
    }

    ghost predicate Valid()
      reads this, buffer, buffer.slots
    {
      LinkValid(LinkState()) && buffer.Valid() && buffer.size == BufferSize
    }

    constructor (url: string, key: string, source: string, db: string, device: string, loc: string)
      ensures Valid() && fresh(buffer) && fresh(buffer.slots)
      ensures mongoURL == url && apiKey == key && dataSource == source && database == db
      ensures deviceName == device && location == loc
      ensures sensorCollection == SensorCollection && eventCollection == EventCollection
      ensures LinkState() == Link(false, false, false, 0, 0, 0) && maxRetries == DefaultMaxRetries
      ensures buffer.State() == Empty(BufferSize)
    {
      mongoURL := url;
      apiKey := key;
      dataSource := source;
      database := db;
      deviceName := device;
      location := loc;
      sensorCollection := SensorCollection;
      eventCollection := EventCollection;
      hasHttpClient := false;
      connected := false;
      initialized := false;
      lastConnectionTest := 0;
      lastRetryTime := 0;
      retryCount := 0;
      maxRetries := DefaultMaxRetries;
      buffer := new SlotBuffer(BufferSize);
    }

    /** validateConfiguration: the location may be empty. */
    function ValidateConfiguration(): (ok: bool)
      reads this
      ensures ok <==> mongoURL != [] && apiKey != [] && dataSource != [] && database != [] && deviceName != []
    {
      |mongoURL| > 0 && |apiKey| > 0 && |dataSource| > 0 && |database| > 0 && |deviceName| > 0
    }

    function GetRetryDelay(): (d: nat)
      reads this
      ensures d == Backoff(RetryDelay, retryCount)
      ensures d in {30000, 60000, 120000, 240000, 300000}
    {
      RetryDelays(retryCount);
      Backoff(RetryDelay, retryCount)
    }

    /** getConnectionStatus: the same five texts as the API client's, from `Delivery.ConnectionStatus`. */
    function GetConnectionStatus(): (s: string)
      reads this, buffer
      ensures s == ConnectionStatus(initialized, connected, buffer.count, retryCount, maxRetries)
    {
      ConnectionStatus(initialized, connected, buffer.count, retryCount, maxRetries)
    }

    /** testConnection, with millis() as `now` and the findOne request's code as `code`. */
    method TestConnection(now: nat, code: int) returns (up: bool)
      requires Valid() && now < TimeModulus
      modifies this`connected, this`lastConnectionTest, this`retryCount
      ensures Valid()
      ensures Probed(LinkState(), up) == Probe(old(LinkState()), now, code, ConnectionTestInterval)
    {
      if !hasHttpClient {
        return false;
      }
      if Elapsed(now, lastConnectionTest) < ConnectionTestInterval {
        return connected;
      }
      connected := code == StatusOk;
      lastConnectionTest := now;
      if connected {
        retryCount := 0;
      }
      up := connected;
    }

    /** cleanupHTTPClient and the link going down. */
    method Disconnect()
      requires Valid()
      modifies this`hasHttpClient, this`connected
      ensures Valid() && !hasHttpClient && !connected
    {
      hasHttpClient := false;
      connected := false;
    }

    /** begin: a second call succeeds at once; an invalid configuration fails
        and leaves the client uninitialised; otherwise a new HTTP client replaces
        any old one, the client is initialised and the connection test decides
        the result. */
    method Begin(now: nat, code: int) returns (ok: bool)
      requires Valid() && now < TimeModulus
      modifies this`hasHttpClient, this`initialized, this`connected, this`lastConnectionTest, this`retryCount
      ensures Valid()
      ensures old(initialized) ==> ok && LinkState() == old(LinkState())
      ensures !old(initialized) && !ValidateConfiguration() ==> !ok && LinkState() == old(LinkState())
      ensures !old(initialized) && ValidateConfiguration() ==>
                Probed(LinkState(), ok) == Probe(old(LinkState()).(initialized := true, hasHttpClient := true), now, code, ConnectionTestInterval)
    {
      if initialized {
        return true;
      }
      if !ValidateConfiguration() {
        return false;
      }
      hasHttpClient := true;
      initialized := true;
      ok := TestConnection(now, code);
    }

    /** setCredentials: new Data API settings; an initialised client is
        disconnected and must be begun again. */
    method SetCredentials(url: string, key: string, source: string, db: string)
      requires Valid()
      modifies this`mongoURL, this`apiKey, this`dataSource, this`database
      modifies this`hasHttpClient, this`connected, this`initialized
      ensures Valid()
      ensures mongoURL == url && apiKey == key && dataSource == source && database == db
      ensures old(initialized) ==> !initialized && !connected && !hasHttpClient
      ensures !old(initialized) ==> LinkState() == old(LinkState())
    {
      mongoURL := url;
      apiKey := key;
      dataSource := source;
      database := db;
      if initialized {
        Disconnect();
        initialized := false;
      }
    }

    /** writeAggregatedData: without a link the record is buffered; otherwise
        it is inserted, a success resets the retry count and a failure buffers it. */
    method WriteAggregatedData(data: AggregatedData, now: nat, code: int) returns (ok: bool)
      requires Valid()
      modifies this`retryCount, buffer`index, buffer`count, buffer.slots
      ensures Valid()
      ensures ok <==> old(initialized && connected) && Succeeded(code)
      ensures ok ==> buffer.State() == old(buffer.State()) && retryCount == 0
      ensures !ok ==> buffer.State() == Added(old(buffer.State()), data, now) && retryCount == old(retryCount)
    {
      if !initialized || !connected {
        buffer.Add(data, now);
        return false;
      }
      var posted := InsertDocument(hasHttpClient, code);
      if posted {
        retryCount := 0;
        return true;
      } else {
        buffer.Add(data, now);
        return false;
      }
    }

    /** writeEvent: inserted only over a live link, never buffered. */
    method WriteEvent(event: Event, code: int) returns (ok: bool)
      requires Valid()
      ensures ok <==> initialized && connected && Succeeded(code)
    {
      if !initialized || !connected {
        return false;
      }
      ok := InsertDocument(hasHttpClient, code);
    }

    /** processBuffer (also flushBuffer). */
    method ProcessBuffer(codes: seq<int>) returns (allSuccess: bool)
      requires Valid()
      modifies buffer`count, buffer.slots
      ensures Valid()
      ensures var f := Processed(old(buffer.State()), connected, codes);
              buffer.State() == f.next && allSuccess == f.allSuccess
    {
      var sent;
      allSuccess, sent := buffer.Process(connected, codes);
    }

    /** update, with millis() as `now`. */
    method Update(now: nat, rs: Replies)
      requires Valid() && now < TimeModulus
      modifies this`connected, this`lastConnectionTest, this`retryCount, this`lastRetryTime
      modifies buffer`count, buffer.slots
      ensures Valid()
      ensures Snapshot() == Delivery.Update(old(Snapshot()), now, rs, ConnectionTestInterval, RetryDelay)
    {
      if !initialized {
        return;
      }
      if !connected && Elapsed(now, lastRetryTime) > GetRetryDelay() {
        var up := TestConnection(now, rs.probe);
        if up {
          var flushed := ProcessBuffer(rs.reconnectFlush);
        } else {
          retryCount := (retryCount + 1) % RetryModulus;
          lastRetryTime := now;
        }
      }
      ghost var mid := Snapshot();
      assert mid == Delivery.Reconnect(old(Snapshot()), now, rs, ConnectionTestInterval, RetryDelay);
      if connected && buffer.count > 0 {
        var flushed := ProcessBuffer(rs.periodicFlush);
      }
    }
  }
}
