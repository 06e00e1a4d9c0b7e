/** FakeHealthCheck of redisapi/hc.py: two flags recording whether a check
    was ever added or removed. */
module HealthCheck {

  class FakeHealthCheck {
    var added: bool
    var removed: bool

    constructor ()
      ensures !added && !removed
    {
      added, removed := false, false;
    }

    /** Records an add; the host and port play no part. */
    method Add(host: string, port: string)
      modifies this
      ensures added && removed == old(removed)
    {
      added := true;
    }

    /** Records a remove; the host and port play no part. */
    method Remove(host: string, port: string)
      modifies this
      ensures removed && added == old(added)
    {
      removed := true;
    }
  }
}
