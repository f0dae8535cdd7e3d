/** SessionIdProvider: the per-scope cell holding the id of the session the scope
  * belongs to. */
module SessionIds {
  import opened Models

  class SessionIdProvider {
    var sessionId: Guid

    /** A new provider holds Guid.Empty. */
    constructor()
      ensures sessionId == EmptyGuid
    {
      sessionId := EmptyGuid;
    }

    /** SetSessionId: the new id replaces whatever was held before. */
    method SetSessionId(id: Guid)
      modifies this
      ensures sessionId == id
    {
      sessionId := id;
    }

    /** GetSessionId reads the cell and changes nothing. */
    method GetSessionId() returns (r: Guid)
      ensures r == sessionId
    {
      return sessionId;
    }
  }

  /** Set, then get, returns the id set; a second set overwrites the first. */
  method SetThenGet(a: Guid, b: Guid)
  {
    var p := new SessionIdProvider();
    var r0 := p.GetSessionId();
    assert r0 == EmptyGuid;
    p.SetSessionId(a);
    var r1 := p.GetSessionId();
    assert r1 == a;
    p.SetSessionId(b);
    var r2 := p.GetSessionId();
    assert r2 == b;
  }
}
