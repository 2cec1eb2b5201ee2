/** The verticle as an object: the write handlers send their reply and,
    through `setCacheFlag`, mark the `"accounts"` cache domain. The flag
    store itself lives elsewhere; here it is the set of domains this
    verticle has marked. */
module AccountVerticle {
  import opened Wrappers
  import opened AccountClasses
  import H = AccountHandlers

  class AccountJdbcVerticle {
    /** The cache domains marked through `setCacheFlag`. */
    var cacheFlags: set<string>

    constructor()
      ensures cacheFlags == {}
    {
      cacheFlags := {};
    }

    /** Sends a handler's reply and performs its `setCacheFlag` call, if any. */
    method Complete(h: H.Handled) returns (reply: H.Reply)
      modifies this
      ensures reply == h.reply
      ensures cacheFlags == if h.setsCacheFlag then old(cacheFlags) + {H.CACHE_ADDRESS} else old(cacheFlags)
    {
      if h.setsCacheFlag {
        cacheFlags := cacheFlags + {H.CACHE_ADDRESS};
      }
      reply := h.reply;
    }

    method CreateUser(body: UserCreation, outcome: H.QueryOutcome, generatedId: Option<int>) returns (reply: H.Reply)
      modifies this
      ensures reply == H.CreateUser(body, outcome, generatedId).reply
      ensures cacheFlags == if outcome.Done? && generatedId.Some? then old(cacheFlags) + {H.CACHE_ADDRESS}
                            else old(cacheFlags)
    {
      reply := Complete(H.CreateUser(body, outcome, generatedId));
    }

    method UpdateUser(body: User, outcome: H.QueryOutcome) returns (reply: H.Reply)
      modifies this
      ensures reply == H.UpdateUser(body, outcome).reply
      ensures reply.Reply? ==> cacheFlags == old(cacheFlags) + {H.CACHE_ADDRESS}
      ensures reply.Fail? ==> cacheFlags == old(cacheFlags)
    {
      reply := Complete(H.UpdateUser(body, outcome));
    }

    method DeleteUser(transaction: H.Transaction, usersDelete: Option<H.QueryOutcome>,
                      permissionsDelete: H.QueryOutcome) returns (reply: H.Reply)
      requires transaction.Committed? ==> usersDelete.Some? && permissionsDelete.Done?
      modifies this
      ensures reply == H.DeleteUser(transaction, usersDelete, permissionsDelete).reply
      ensures reply.Reply? ==> cacheFlags == old(cacheFlags) + {H.CACHE_ADDRESS}
      ensures permissionsDelete.Failed? ==> reply == H.Fail(500, H.FAILED)
      ensures cacheFlags == if usersDelete.Some? && H.ChangedRows(usersDelete.value)
                            then old(cacheFlags) + {H.CACHE_ADDRESS} else old(cacheFlags)
    {
      reply := Complete(H.DeleteUser(transaction, usersDelete, permissionsDelete));
    }

    method CreateBackendPermissions(body: BackendPermissions, outcome: H.QueryOutcome) returns (reply: H.Reply)
      modifies this
      ensures reply == H.CreateBackendPermissions(body, outcome).reply
      ensures reply.Reply? ==> cacheFlags == old(cacheFlags) + {H.CACHE_ADDRESS}
      ensures reply.Fail? ==> cacheFlags == old(cacheFlags)
    {
      reply := Complete(H.CreateBackendPermissions(body, outcome));
    }

    method UpdateBackendPermissions(body: BackendPermissions, outcome: H.QueryOutcome) returns (reply: H.Reply)
      modifies this
      ensures reply == H.UpdateBackendPermissions(body, outcome).reply
      ensures reply.Reply? ==> cacheFlags == old(cacheFlags) + {H.CACHE_ADDRESS}
      ensures reply.Fail? ==> cacheFlags == old(cacheFlags)
    {
      reply := Complete(H.UpdateBackendPermissions(body, outcome));
    }

    method DeleteBackendPermissions(outcome: H.QueryOutcome) returns (reply: H.Reply)
      modifies this
      ensures reply == H.DeleteBackendPermissions(outcome).reply
      ensures reply.Reply? ==> cacheFlags == old(cacheFlags) + {H.CACHE_ADDRESS}
      ensures reply.Fail? ==> cacheFlags == old(cacheFlags)
    {
      reply := Complete(H.DeleteBackendPermissions(outcome));
    }
  }
}
