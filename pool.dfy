/** The connection pool's lifecycle (`pool.py`): a lazily created session and a closed flag. */
module Pool {

  /** `PoolConfig`. */
  datatype PoolConfig = PoolConfig(maxConnections: int, maxIdleTime: int)

  /** `PoolConfig()` with no arguments. */
  const DefaultPoolConfig := PoolConfig(10, 60000)

  /** What `get_stats` reports of the connector. */
  datatype PoolStats = PoolStats(connectorLimit: int)

  /** The transport session the pool hands out, reduced to the headers it sends and whether it
      has been closed. */
  class Session {
    const headers: map<string, string>
    var closed: bool

    constructor (headers: map<string, string>)
      ensures this.headers == headers && !closed
    {
      this.headers := headers;
      closed := false;
    }

    /** `session.close()`. */
    method Close()
      modifies this
      ensures closed
    {
      closed := true;
    }
  }

  class ConnectionPool {
    const baseUrl: string
    const headers: map<string, string>
    const config: PoolConfig
    /** The limit the connector was created with; the connector itself is not modelled. */
    const connectorLimit: int
    var session: Session?
    var closed: bool

    ghost predicate Valid() {
      connectorLimit == config.maxConnections
    }

    /** A new pool has no session, is not closed, and limits its connector to `max_connections`. */
    constructor (baseUrl: string, headers: map<string, string>, config: PoolConfig)
      ensures Valid()
      ensures this.baseUrl == baseUrl && this.headers == headers && this.config == config
      ensures connectorLimit == config.maxConnections
      ensures session == null && !closed
    {
      this.baseUrl := baseUrl;
      this.headers := headers;
      this.config := config;
      connectorLimit := config.maxConnections;
      session := null;
      closed := false;
    }

    /** `initialize`: creates a session only when there is none; otherwise nothing changes. */
    method Initialize()
      modifies this
      ensures old(session) == null ==> session != null && fresh(session) && session.headers == headers && !session.closed
      ensures old(session) != null ==> session == old(session)
      ensures closed == old(closed)
    {
      if session == null {
        session := new Session(headers);
      }
    }

    /** `acquire`: initialises first when needed and returns the pool's one session. It never
        consults `closed`, so after `Close` it hands out the same, closed session. */
    method Acquire() returns (s: Session)
      modifies this
      ensures s == session
      ensures old(session) != null ==> s == old(session)
      ensures old(session) == null ==> fresh(s) && s.headers == headers && !s.closed
      ensures closed == old(closed)
    {
      if session == null {
        Initialize();
      }
      s := session;
    }

    /** `close`: closes and flags an existing session, keeping the reference; a pool that never
        had a session is left as it is. */
    method Close()
      modifies this, session
      ensures session == old(session)
      ensures old(session) == null ==> closed == old(closed)
      ensures old(session) != null ==> closed && session.closed
    {
      if session != null {
        session.Close();
        closed := true;
      }
    }

    /** `get_stats`, without the connector's semaphore count. */
    function Stats(): (st: PoolStats)
      requires Valid()
      ensures st.connectorLimit == config.maxConnections
    {
      PoolStats(connectorLimit)
    }
  }

  /** The lifecycle end to end: initialising twice keeps a single session, acquiring returns it,
      closing flags it, and acquiring after closing returns that same closed session. */
  method LifecycleScenario(headers: map<string, string>) returns (first: Session, afterClose: Session)
    ensures first == afterClose && first.closed
  {
    var pool := new ConnectionPool("http://x", headers, DefaultPoolConfig);
    pool.Close();
    assert pool.session == null && !pool.closed;
    pool.Initialize();
    var created := pool.session;
    pool.Initialize();
    assert pool.session == created;
    first := pool.Acquire();
    assert first == created;
    pool.Close();
    afterClose := pool.Acquire();
    assert pool.closed;
  }
}
