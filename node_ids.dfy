/** The plain id builder of src/node-ids.js. */
module NodeIds {
  import Strings

  datatype NodeIdSet = NodeIdSet(localClientId: string, localServerId: string, remoteClientId: string, remoteServerId: string)

  /**
   * `nodeIds({localId, remoteId})`: the local ids start `localId->remoteId`,
   * the remote ids `remoteId->localId`, and each id ends with its role.
   */
  function NodeIds(localId: string, remoteId: string): (ids: NodeIdSet)
    ensures Strings.IsPrefix(localId + "->" + remoteId, ids.localClientId)
    ensures Strings.IsPrefix(localId + "->" + remoteId, ids.localServerId)
    ensures Strings.IsPrefix(remoteId + "->" + localId, ids.remoteClientId)
    ensures Strings.IsPrefix(remoteId + "->" + localId, ids.remoteServerId)
    ensures Strings.IsSuffix("/client", ids.localClientId) && Strings.IsSuffix("/client", ids.remoteClientId)
    ensures Strings.IsSuffix("/server", ids.localServerId) && Strings.IsSuffix("/server", ids.remoteServerId)
  {
    Strings.PrefixOfConcat(localId + "->" + remoteId, "/client");
    Strings.PrefixOfConcat(localId + "->" + remoteId, "/server");
    Strings.PrefixOfConcat(remoteId + "->" + localId, "/client");
    Strings.PrefixOfConcat(remoteId + "->" + localId, "/server");
    Strings.SuffixOfConcat(localId + "->" + remoteId, "/client");
    Strings.SuffixOfConcat(localId + "->" + remoteId, "/server");
    Strings.SuffixOfConcat(remoteId + "->" + localId, "/client");
    Strings.SuffixOfConcat(remoteId + "->" + localId, "/server");
    NodeIdSet(
      localId + "->" + remoteId + "/client",
      localId + "->" + remoteId + "/server",
      remoteId + "->" + localId + "/client",
      remoteId + "->" + localId + "/server")
  }

  /** The ids for ('local', 'remote'). */
  lemma NodeIdsSample()
    ensures NodeIds("local", "remote")
         == NodeIdSet("local->remote/client", "local->remote/server", "remote->local/client", "remote->local/server")
  {
    assert "local" + "->" + "remote" == "local->remote";
    assert "remote" + "->" + "local" == "remote->local";
    assert "local->remote" + "/client" == "local->remote/client";
    assert "local->remote" + "/server" == "local->remote/server";
    assert "remote->local" + "/client" == "remote->local/client";
    assert "remote->local" + "/server" == "remote->local/server";
  }

  /** Swapping the two ids swaps local and remote. */
  lemma NodeIdsSymmetric(l: string, r: string)
    ensures NodeIds(l, r).localClientId == NodeIds(r, l).remoteClientId
    ensures NodeIds(l, r).localServerId == NodeIds(r, l).remoteServerId
  {
  }

  /**
   * The local client and local server ids share the prefix `l->r`, differ
   * only in their suffixes, and are therefore never equal.
   */
  lemma LocalIdsDifferOnlyInSuffix(l: string, r: string)
    ensures Strings.IsPrefix(l + "->" + r, NodeIds(l, r).localClientId)
    ensures Strings.IsPrefix(l + "->" + r, NodeIds(l, r).localServerId)
    ensures NodeIds(l, r).localClientId[|l + "->" + r|..] == "/client"
    ensures NodeIds(l, r).localServerId[|l + "->" + r|..] == "/server"
    ensures NodeIds(l, r).localClientId != NodeIds(l, r).localServerId
  {
    var p := l + "->" + r;
    assert NodeIds(l, r).localClientId == p + "/client";
    assert NodeIds(l, r).localServerId == p + "/server";
    Strings.PrefixOfConcat(p, "/client");
    Strings.PrefixOfConcat(p, "/server");
    assert (p + "/client")[|p|..] == "/client";
    assert (p + "/server")[|p|..] == "/server";
    Strings.DifferentLastCharacter(p, "/client", p, "/server");
  }
}
