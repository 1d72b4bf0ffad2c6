/** The settings-store decisions of the API client (DefaultZipwhipClient.java):
    when connecting the signal provider or receiving a new client id, the
    persisted client id and session key decide whether the store is cleared
    and which signals requests are issued.  The collaborators (the API
    connection, the signal provider, the settings store and the request
    executor) are fields and logs of the client. */
module ZipwhipClient {
  import opened Wrappers

  /** The settings store's keys used here. */
  datatype SettingKey = ClientId | SessionKey

  /** The remote endpoints called here.  Their URL constants belong to the
      network support base class, which is not part of this model. */
  datatype Endpoint = SignalsConnectEndpoint | SignalsDisconnectEndpoint | MessageReadEndpoint | MessageDeleteEndpoint | GroupSaveEndpoint

  datatype Param = Text(text: string) | Texts(items: seq<string>)

  /** One `executeSync(endpoint, params)` call. */
  datatype Request = Request(endpoint: Endpoint, params: map<string, Param>)

  /** A call on the signal provider. */
  datatype ProviderCall = ProviderConnect(clientId: Option<string>) | ProviderDisconnect

  /** The state of the API connection the client reads. */
  datatype ApiConnection = ApiConnection(connected: bool, authenticated: bool, sessionKey: Option<string>)

  datatype ClientError = NotAuthenticated | NotConnected

  /** StringUtil.isNullOrEmpty; StringUtil.exists is its negation. */
  predicate IsNullOrEmpty(s: Option<string>)
  {
    s.None? || s.value == ""
  }

  /** settingsStore.get: null for an absent key. */
  function Get(store: map<SettingKey, string>, key: SettingKey): (r: Option<string>)
    ensures r.Some? <==> key in store
    ensures r.Some? ==> r.value == store[key]
  {
    if key in store then Some(store[key]) else None
  }

  /** The type sent by saveGroup: the given type when it starts with "Group",
      otherwise "Group". */
  function GroupType(requested: Option<string>): (r: string)
    ensures "Group" <= r
    ensures requested.Some? && "Group" <= requested.value ==> r == requested.value
    ensures requested.None? || !("Group" <= requested.value) ==> r == "Group"
  {
    var t := if requested.None? then "Group" else requested.value;
    if !("Group" <= t) then "Group" else t
  }

  /** The settings store after connect's invalidation.  The store is cleared
      when no client id is stored or the provider reports a different one;
      then, when the connection's session key is new, the store is cleared
      again and the key is stored. */
  function InvalidateOnConnect(store: map<SettingKey, string>, providerClientId: Option<string>,
                               sessionKey: Option<string>): (r: map<SettingKey, string>)
    ensures !IsNullOrEmpty(sessionKey) && sessionKey != Get(store, SessionKey) ==>
              r == map[SessionKey := sessionKey.value]
    ensures !IsNullOrEmpty(sessionKey) ==> Get(r, SessionKey) == sessionKey
    ensures IsNullOrEmpty(Get(store, ClientId))
            || (!IsNullOrEmpty(providerClientId) && Get(store, ClientId) != providerClientId) ==>
              ClientId !in r
    ensures IsNullOrEmpty(Get(store, ClientId))
            || (!IsNullOrEmpty(providerClientId) && Get(store, ClientId) != providerClientId) ==>
              r == (if IsNullOrEmpty(sessionKey) then map[] else map[SessionKey := sessionKey.value])
    ensures !IsNullOrEmpty(Get(store, ClientId))
            && (IsNullOrEmpty(providerClientId) || Get(store, ClientId) == providerClientId)
            && (IsNullOrEmpty(sessionKey) || sessionKey == Get(store, SessionKey)) ==>
              r == store
  {
    var managed := Get(store, ClientId);
    var afterClientId :=
      if IsNullOrEmpty(managed) || (!IsNullOrEmpty(providerClientId) && managed != providerClientId)
      then map[] else store;
    if !IsNullOrEmpty(sessionKey) && sessionKey != Get(afterClientId, SessionKey)
    then map[SessionKey := sessionKey.value]
    else afterClientId
  }

  /** The client id connect hands to the provider is one that was already
      stored, is not empty, and does not contradict the provider's own. */
  lemma InvalidationKeepsOnlyConfirmedClientId(store: map<SettingKey, string>, providerClientId: Option<string>,
                                               sessionKey: Option<string>)
    ensures var r := InvalidateOnConnect(store, providerClientId, sessionKey);
            ClientId in r ==>
              && ClientId in store && r[ClientId] == store[ClientId] && store[ClientId] != ""
              && (IsNullOrEmpty(providerClientId) || providerClientId == Some(store[ClientId]))
  {
  }

  /** Invalidating twice with the same client id and session key is the same
      as invalidating once. */
  lemma InvalidationIsIdempotent(store: map<SettingKey, string>, providerClientId: Option<string>,
                                 sessionKey: Option<string>)
    ensures var r := InvalidateOnConnect(store, providerClientId, sessionKey);
            InvalidateOnConnect(r, providerClientId, sessionKey) == r
  {
  }

  /** The parameters of the signals connect/disconnect requests. */
  function SignalsParams(clientId: string, sessionKey: string): map<string, Param>
  {
    map["clientId" := Text(clientId), "sessions" := Text(sessionKey)]
  }

  class DefaultZipwhipClient {
    var connection: ApiConnection
    var signalClientId: Option<string>
    var settings: map<SettingKey, string>
    var requests: seq<Request>
    var providerCalls: seq<ProviderCall>

    constructor (connection: ApiConnection, signalClientId: Option<string>, settings: map<SettingKey, string>)
      ensures this.connection == connection && this.signalClientId == signalClientId
      ensures this.settings == settings && requests == [] && providerCalls == []
    {
      this.connection := connection;
      this.signalClientId := signalClientId;
      this.settings := settings;
      requests, providerCalls := [], [];
    }

    /** Connects the signal provider with the stored client id, after
        invalidating the settings store; refused unless the API connection is
        connected and authenticated. */
    method Connect() returns (r: Result<(), ClientError>)
      modifies this`settings, this`providerCalls
      ensures !(connection.connected && connection.authenticated) ==>
                r == Failure(NotAuthenticated) && settings == old(settings) && providerCalls == old(providerCalls)
      ensures connection.connected && connection.authenticated ==>
                && r == Success(())
                && settings == InvalidateOnConnect(old(settings), signalClientId, connection.sessionKey)
                && providerCalls == old(providerCalls) + [ProviderConnect(Get(settings, ClientId))]
    {
      if !connection.connected || !connection.authenticated {
        return Failure(NotAuthenticated);
      }
      var managedClientId := Get(settings, ClientId);
      if IsNullOrEmpty(managedClientId) || (!IsNullOrEmpty(signalClientId) && managedClientId != signalClientId) {
        settings := map[];
      }
      if !IsNullOrEmpty(connection.sessionKey) && connection.sessionKey != Get(settings, SessionKey) {
        settings := map[];
        settings := settings[SessionKey := connection.sessionKey.value];
      }
      providerCalls := providerCalls + [ProviderConnect(Get(settings, ClientId))];
      r := Success(());
    }

    /** Disconnects the signal provider; refused when the API connection is
        not connected. */
    method Disconnect() returns (r: Result<(), ClientError>)
      modifies this`providerCalls
      ensures !connection.connected ==> r == Failure(NotConnected) && providerCalls == old(providerCalls)
      ensures connection.connected ==> r == Success(()) && providerCalls == old(providerCalls) + [ProviderDisconnect]
    {
      if !connection.connected {
        return Failure(NotConnected);
      }
      providerCalls := providerCalls + [ProviderDisconnect];
      r := Success(());
    }

    /** The observer of new client ids from the signal provider.  When the
        signals/disconnect request throws, the exception is logged and
        signals/connect is not issued; `disconnectThrows` stands for that
        outcome of the remote call. */
    method OnNewClientIdReceived(clientId: Option<string>, disconnectThrows: bool)
      modifies this`settings, this`requests
      ensures IsNullOrEmpty(clientId) ==> settings == old(settings) && requests == old(requests)
      ensures !IsNullOrEmpty(clientId) && IsNullOrEmpty(connection.sessionKey) ==>
                settings == old(settings)[ClientId := clientId.value] && requests == old(requests)
      ensures !IsNullOrEmpty(clientId) && !IsNullOrEmpty(connection.sessionKey)
              && !IsNullOrEmpty(Get(old(settings), ClientId)) && Get(old(settings), ClientId) == clientId ==>
                settings == old(settings) && requests == old(requests)
      ensures !IsNullOrEmpty(clientId) && !IsNullOrEmpty(connection.sessionKey)
              && !IsNullOrEmpty(Get(old(settings), ClientId)) && Get(old(settings), ClientId) != clientId ==>
                && settings == map[ClientId := clientId.value]
                && requests == old(requests)
                     + [Request(SignalsDisconnectEndpoint, SignalsParams(clientId.value, connection.sessionKey.value))]
                     + (if disconnectThrows then []
                        else [Request(SignalsConnectEndpoint, SignalsParams(clientId.value, connection.sessionKey.value))])
      ensures !IsNullOrEmpty(clientId) && !IsNullOrEmpty(connection.sessionKey)
              && IsNullOrEmpty(Get(old(settings), ClientId)) ==>
                && settings == old(settings)[ClientId := clientId.value]
                && requests == old(requests)
                     + [Request(SignalsConnectEndpoint, SignalsParams(clientId.value, connection.sessionKey.value))]
    {
      if IsNullOrEmpty(clientId) {
        return;
      }
      if IsNullOrEmpty(connection.sessionKey) {
        settings := settings[ClientId := clientId.value];
        return;
      }
      var managedClientId := Get(settings, ClientId);
      var params := SignalsParams(clientId.value, connection.sessionKey.value);
      if !IsNullOrEmpty(managedClientId) {
        if managedClientId != clientId {
          settings := map[];
          settings := settings[ClientId := clientId.value];
          requests := requests + [Request(SignalsDisconnectEndpoint, params)];
          if !disconnectThrows {
            requests := requests + [Request(SignalsConnectEndpoint, params)];
          }
        }
      } else {
        settings := settings[ClientId := clientId.value];
        requests := requests + [Request(SignalsConnectEndpoint, params)];
      }
    }

    /** Marks messages read; an empty or null list is refused without a
        request.  `serverSuccess` is the parsed response's success flag. */
    method MessageRead(uuids: Option<seq<string>>, serverSuccess: bool) returns (ok: bool)
      modifies this`requests
      ensures uuids.None? || uuids.value == [] ==> !ok && requests == old(requests)
      ensures uuids.Some? && uuids.value != [] ==>
                ok == serverSuccess && requests == old(requests) + [Request(MessageReadEndpoint, map["uuid" := Texts(uuids.value)])]
    {
      if uuids.None? || uuids.value == [] {
        return false;
      }
      requests := requests + [Request(MessageReadEndpoint, map["uuid" := Texts(uuids.value)])];
      ok := serverSuccess;
    }

    /** Deletes messages; an empty or null list is refused without a request. */
    method MessageDelete(uuids: Option<seq<string>>, serverSuccess: bool) returns (ok: bool)
      modifies this`requests
      ensures uuids.None? || uuids.value == [] ==> !ok && requests == old(requests)
      ensures uuids.Some? && uuids.value != [] ==>
                ok == serverSuccess && requests == old(requests) + [Request(MessageDeleteEndpoint, map["uuids" := Texts(uuids.value)])]
    {
      if uuids.None? || uuids.value == [] {
        return false;
      }
      requests := requests + [Request(MessageDeleteEndpoint, map["uuids" := Texts(uuids.value)])];
      ok := serverSuccess;
    }

    /** Saves a group: the type is normalised, the advertisement is sent only
        when given. */
    method SaveGroup(groupType: Option<string>, advertisement: Option<string>)
      modifies this`requests
      ensures |requests| == |old(requests)| + 1 && requests[..|old(requests)|] == old(requests)
      ensures requests[|old(requests)|].endpoint == GroupSaveEndpoint
      ensures requests[|old(requests)|].params.Keys == {"type"} + (if advertisement.Some? then {"advertisement"} else {})
      ensures requests[|old(requests)|].params["type"] == Text(GroupType(groupType))
      ensures advertisement.Some? ==> requests[|old(requests)|].params["advertisement"] == Text(advertisement.value)
    {
      var t := groupType;
      if t.None? {
        t := Some("Group");
      }
      if !("Group" <= t.value) {
        t := Some("Group");
      }
      var params := map["type" := Text(t.value)];
      if advertisement.Some? {
        params := params["advertisement" := Text(advertisement.value)];
      }
      requests := requests + [Request(GroupSaveEndpoint, params)];
    }
  }

  /** A changed client id with a session present: the store keeps only the
      new client id, the old subscription is dropped and the new one made.
      Because the session key went with the cleared store, the next connect
      clears the store again and hands the provider no client id. */
  method ChangedClientIdIsResubscribed() returns (requests: seq<Request>, afterChange: map<SettingKey, string>,
                                                 connectCall: ProviderCall)
    ensures requests == [Request(SignalsDisconnectEndpoint, SignalsParams("new", "session")),
                         Request(SignalsConnectEndpoint, SignalsParams("new", "session"))]
    ensures afterChange == map[ClientId := "new"]
    ensures connectCall == ProviderConnect(None)
  {
    var client := new DefaultZipwhipClient(ApiConnection(true, true, Some("session")), Some("new"),
                                           map[ClientId := "old", SessionKey := "session"]);
    client.OnNewClientIdReceived(Some("new"), false);
    requests, afterChange := client.requests, client.settings;
    var r := client.Connect();
    connectCall := client.providerCalls[0];
  }
}
