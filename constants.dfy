/** The shared constants and id builders of src/constants.js. */
module Constants {
  import Strings

  /** The labels under which requests, responses and acknowledgements travel. */
  datatype MessageTypes = MessageTypes(request: string, response: string, ack: string)

  const MESSAGE_TYPES := MessageTypes("request", "response", "ack")

  /** No two message types share a label. */
  lemma MessageTypesDistinct()
    ensures MESSAGE_TYPES.request != MESSAGE_TYPES.response
    ensures MESSAGE_TYPES.request != MESSAGE_TYPES.ack
    ensures MESSAGE_TYPES.response != MESSAGE_TYPES.ack
  {
  }

  /** The id of a server node: it names the server as local and ends with "/server". */
  function ServerNodeId(serverId: string, clientId: string): (id: string)
    ensures Strings.IsPrefix("[local:" + serverId + "]->[remote:", id)
    ensures Strings.IsSuffix("]/server", id)
    ensures |id| == |serverId| + |clientId| + 26
  {
    Strings.PrefixOfConcat("[local:" + serverId + "]->[remote:", clientId + "]/server");
    Strings.SuffixOfConcat("[local:" + serverId + "]->[remote:" + clientId, "]/server");
    "[local:" + serverId + "]->[remote:" + clientId + "]/server"
  }

  /** The id of a client node: it names the client as local and ends with "/client". */
  function ClientNodeId(serverId: string, clientId: string): (id: string)
    ensures Strings.IsPrefix("[local:" + clientId + "]->[remote:", id)
    ensures Strings.IsSuffix("]/client", id)
    ensures |id| == |serverId| + |clientId| + 26
  {
    Strings.PrefixOfConcat("[local:" + clientId + "]->[remote:", serverId + "]/client");
    Strings.SuffixOfConcat("[local:" + clientId + "]->[remote:" + serverId, "]/client");
    "[local:" + clientId + "]->[remote:" + serverId + "]/client"
  }

  datatype NodeIdSet = NodeIdSet(localClientId: string, localServerId: string, remoteClientId: string, remoteServerId: string)

  /**
   * `nodeIds({localId, remoteId})`: the two local ids name `localId` as
   * local, the two remote ids name `remoteId`, and each id ends with its role.
   */
  function NodeIds(localId: string, remoteId: string): (ids: NodeIdSet)
    ensures Strings.IsPrefix("[local:" + localId + "]->[remote:", ids.localClientId)
    ensures Strings.IsPrefix("[local:" + localId + "]->[remote:", ids.localServerId)
    ensures Strings.IsPrefix("[local:" + remoteId + "]->[remote:", ids.remoteClientId)
    ensures Strings.IsPrefix("[local:" + remoteId + "]->[remote:", ids.remoteServerId)
    ensures Strings.IsSuffix("]/client", ids.localClientId) && Strings.IsSuffix("]/client", ids.remoteClientId)
    ensures Strings.IsSuffix("]/server", ids.localServerId) && Strings.IsSuffix("]/server", ids.remoteServerId)
  {
    NodeIdSet(
      ClientNodeId(remoteId, localId),
      ServerNodeId(localId, remoteId),
      ClientNodeId(localId, remoteId),
      ServerNodeId(remoteId, localId))
  }

  /**
   * `ipcMessageEventName({sourceId, destinationId})`: every event name
   * starts with the source part and ends with "/message".
   */
  function IpcMessageEventName(sourceId: string, destinationId: string): (name: string)
    ensures Strings.IsPrefix("[from:" + sourceId + "]->[to:", name)
    ensures Strings.IsSuffix("/message", name)
    ensures |name| == |sourceId| + |destinationId| + 22
  {
    Strings.PrefixOfConcat("[from:" + sourceId + "]->[to:", destinationId + "]/message");
    Strings.SuffixOfConcat("[from:" + sourceId + "]->[to:" + destinationId + "]", "/message");
    "[from:" + sourceId + "]->[to:" + destinationId + "]/message"
  }

  /** A client node id is never a server node id, whatever ids built them. */
  lemma ClientIdIsNeverServerId(s1: string, c1: string, s2: string, c2: string)
    ensures ClientNodeId(s1, c1) != ServerNodeId(s2, c2)
  {
    Strings.DifferentLastCharacter("[local:" + c1 + "]->[remote:" + s1, "]/client",
                                   "[local:" + s2 + "]->[remote:" + c2, "]/server");
  }

  /** The ids one side calls local are the ids the other side calls remote. */
  lemma NodeIdsSymmetric(l: string, r: string)
    ensures NodeIds(l, r).localClientId == NodeIds(r, l).remoteClientId
    ensures NodeIds(l, r).localServerId == NodeIds(r, l).remoteServerId
    ensures NodeIds(l, r).remoteClientId == NodeIds(r, l).localClientId
    ensures NodeIds(l, r).remoteServerId == NodeIds(r, l).localServerId
  {
  }

  /** Within one set, client ids and server ids never coincide. */
  lemma NodeIdsRolesDistinct(l: string, r: string)
    ensures NodeIds(l, r).localClientId != NodeIds(l, r).localServerId
    ensures NodeIds(l, r).localClientId != NodeIds(l, r).remoteServerId
    ensures NodeIds(l, r).remoteClientId != NodeIds(l, r).localServerId
    ensures NodeIds(l, r).remoteClientId != NodeIds(l, r).remoteServerId
  {
    ClientIdIsNeverServerId(r, l, l, r);
    ClientIdIsNeverServerId(r, l, r, l);
    ClientIdIsNeverServerId(l, r, l, r);
    ClientIdIsNeverServerId(l, r, r, l);
  }

  /** The four strings expected for ('some-local-id', 'some-remote-id'). */
  lemma NodeIdsSample()
    ensures NodeIds("some-local-id", "some-remote-id") == NodeIdSet(
      "[local:some-local-id]->[remote:some-remote-id]/client",
      "[local:some-local-id]->[remote:some-remote-id]/server",
      "[local:some-remote-id]->[remote:some-local-id]/client",
      "[local:some-remote-id]->[remote:some-local-id]/server")
  {
    LocalClientIdSample();
    LocalServerIdSample();
    RemoteClientIdSample();
    RemoteServerIdSample();
  }

  /** The local client id of the sample. */
  lemma LocalClientIdSample()
    ensures ClientNodeId("some-remote-id", "some-local-id") == "[local:some-local-id]->[remote:some-remote-id]/client"
  {
    assert "[local:" + "some-local-id" == "[local:some-local-id";
    assert "[local:some-local-id" + "]->[remote:" == "[local:some-local-id]->[remote:";
    assert "[local:some-local-id]->[remote:" + "some-remote-id" == "[local:some-local-id]->[remote:some-remote-id";
    assert "[local:some-local-id]->[remote:some-remote-id" + "]/client" == "[local:some-local-id]->[remote:some-remote-id]/client";
  }

  /** The local server id of the sample. */
  lemma LocalServerIdSample()
    ensures ServerNodeId("some-local-id", "some-remote-id") == "[local:some-local-id]->[remote:some-remote-id]/server"
  {
    assert "[local:" + "some-local-id" == "[local:some-local-id";
    assert "[local:some-local-id" + "]->[remote:" == "[local:some-local-id]->[remote:";
    assert "[local:some-local-id]->[remote:" + "some-remote-id" == "[local:some-local-id]->[remote:some-remote-id";
    assert "[local:some-local-id]->[remote:some-remote-id" + "]/server" == "[local:some-local-id]->[remote:some-remote-id]/server";
  }

  /** The remote client id of the sample. */
  lemma RemoteClientIdSample()
    ensures ClientNodeId("some-local-id", "some-remote-id") == "[local:some-remote-id]->[remote:some-local-id]/client"
  {
    assert "[local:" + "some-remote-id" == "[local:some-remote-id";
    assert "[local:some-remote-id" + "]->[remote:" == "[local:some-remote-id]->[remote:";
    assert "[local:some-remote-id]->[remote:" + "some-local-id" == "[local:some-remote-id]->[remote:some-local-id";
    assert "[local:some-remote-id]->[remote:some-local-id" + "]/client" == "[local:some-remote-id]->[remote:some-local-id]/client";
  }

  /** The remote server id of the sample. */
  lemma RemoteServerIdSample()
    ensures ServerNodeId("some-remote-id", "some-local-id") == "[local:some-remote-id]->[remote:some-local-id]/server"
  {
    assert "[local:" + "some-remote-id" == "[local:some-remote-id";
    assert "[local:some-remote-id" + "]->[remote:" == "[local:some-remote-id]->[remote:";
    assert "[local:some-remote-id]->[remote:" + "some-local-id" == "[local:some-remote-id]->[remote:some-local-id";
    assert "[local:some-remote-id]->[remote:some-local-id" + "]/server" == "[local:some-remote-id]->[remote:some-local-id]/server";
  }

  /** The event name for ('some-source-id', 'some-destination-id'). */
  lemma IpcMessageEventNameSample()
    ensures IpcMessageEventName("some-source-id", "some-destination-id")
         == "[from:some-source-id]->[to:some-destination-id]/message"
  {
    assert "[from:" + "some-source-id" == "[from:some-source-id";
    assert "[from:some-source-id" + "]->[to:" == "[from:some-source-id]->[to:";
    assert "[from:some-source-id]->[to:" + "some-destination-id" == "[from:some-source-id]->[to:some-destination-id";
    assert "[from:some-source-id]->[to:some-destination-id" + "]/message"
        == "[from:some-source-id]->[to:some-destination-id]/message";
  }
}
