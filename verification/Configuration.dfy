/** Identifiers and configuration: crates/fmtp-core/src/identifier.rs and config.rs. */
module Configuration {
  import opened Prelude

  newtype byte = x: int | 0 <= x < 256

  const MAX_IDENTIFIER := 32

  predicate IsIdentifier(id: seq<byte>) {
    && 0 < |id| <= MAX_IDENTIFIER
    && forall i :: 0 <= i < |id| ==> id[i] < 128
  }

  /** An FMTP identifier: 1 to 32 ASCII bytes. */
  type Identifier = id: seq<byte> | IsIdentifier(id) witness [65]

  datatype IdentifierError = BadLength | NotAscii

  /** Checks the length first, then the alphabet. */
  function NewIdentifier(id: seq<byte>): (r: Result<Identifier, IdentifierError>)
    ensures r.Ok? <==> 1 <= |id| <= 32 && forall i :: 0 <= i < |id| ==> id[i] <= 127
    ensures r.Ok? ==> r.value == id
    ensures r == Err(BadLength) <==> |id| == 0 || |id| > 32
  {
    if id == [] || |id| > MAX_IDENTIFIER then Err(BadLength)
    else if exists i :: 0 <= i < |id| && id[i] >= 128 then Err(NotAscii)
    else Ok(id)
  }

  datatype Role = Client | Server

  datatype Target = Idle | Ready | DataReady

  /** Durations and instants are natural numbers of one common unit. */
  datatype ConnectionConfig = ConnectionConfig(
    localId: Identifier,
    remoteId: Identifier,
    ti: nat,
    tr: nat,
    ts: nat,
    remoteAddresses: seq<string>,
    role: Role,
    initialTarget: Target,
    connectRetryTimer: Option<nat>)

  datatype Config = Config(
    bindAddress: Option<string>,
    connections: map<string, ConnectionConfig>,
    serverTi: Option<nat>)

  datatype ConnectionError = TrBelowTs | NoRemoteAddress

  datatype ConfigError =
    | MissingBindAddress
    | NoConnections
    | BadConnections(errors: seq<(string, ConnectionError)>)

  function ConnectionFault(c: ConnectionConfig): (r: Option<ConnectionError>)
    ensures r.None? <==> c.ts <= c.tr && (c.role.Client? ==> c.remoteAddresses != [])
    ensures r == Some(TrBelowTs) <==> c.tr < c.ts
    ensures r == Some(NoRemoteAddress) <==> c.ts <= c.tr && c.role.Client? && c.remoteAddresses == []
  {
    if c.tr < c.ts then Some(TrBelowTs)
    else if c.role.Client? && c.remoteAddresses == [] then Some(NoRemoteAddress)
    else None
  }

  ghost predicate HasServer(config: Config) {
    exists k :: k in config.connections && config.connections[k].role.Server?
  }

  /** `t` is the largest identification timer of any server connection. */
  ghost predicate IsLongestServerTi(config: Config, t: nat) {
    && (exists k :: k in config.connections && config.connections[k].role.Server? && config.connections[k].ti == t)
    && (forall k :: k in config.connections && config.connections[k].role.Server? ==> config.connections[k].ti <= t)
  }

  ghost predicate AllSound(config: Config) {
    forall k :: k in config.connections ==> ConnectionFault(config.connections[k]).None?
  }

  /** `completed` is `config` with the server timer filled in, where it was open and is needed. */
  ghost predicate IsCompleted(config: Config, completed: Config) {
    && completed == config.(serverTi := completed.serverTi)
    && (config.serverTi.Some? || !HasServer(config) ==> completed == config)
    && (config.serverTi.None? && HasServer(config) ==>
          completed.serverTi.Some? && IsLongestServerTi(config, completed.serverTi.value))
  }

  /** The maximum over the server entries, None when there is no server entry. */
  method LongestServerTi(config: Config, order: seq<string>) returns (longest: Option<nat>)
    requires Enumerates(order, config.connections)
    ensures longest.Some? <==> HasServer(config)
    ensures longest.Some? ==> IsLongestServerTi(config, longest.value)
  {
    longest := None;
    ghost var best := "";
    for i := 0 to |order|
      invariant longest.None? ==> forall j :: 0 <= j < i ==> !config.connections[order[j]].role.Server?
      invariant longest.Some? ==>
                  && best in config.connections
                  && config.connections[best].role.Server?
                  && config.connections[best].ti == longest.value
      invariant longest.Some? ==>
                  forall j :: 0 <= j < i && config.connections[order[j]].role.Server? ==>
                                config.connections[order[j]].ti <= longest.value
    {
      var c := config.connections[order[i]];
      if c.role.Server? && (longest.None? || longest.value < c.ti) {
        longest := Some(c.ti);
        best := order[i];
      }
    }
    assert forall k :: k in config.connections ==> k in order;
  }

  /** Every unsound entry with its fault, in iteration order. */
  method Faults(config: Config, order: seq<string>) returns (errors: seq<(string, ConnectionError)>)
    requires Enumerates(order, config.connections)
    ensures forall k, e :: (k, e) in errors <==>
                           k in config.connections && ConnectionFault(config.connections[k]) == Some(e)
  {
    errors := [];
    for i := 0 to |order|
      invariant forall k, e :: (k, e) in errors <==>
                               k in order[..i] && ConnectionFault(config.connections[k]) == Some(e)
    {
      var fault := ConnectionFault(config.connections[order[i]]);
      assert order[..i + 1] == order[..i] + [order[i]];
      if fault.Some? {
        errors := errors + [(order[i], fault.value)];
      }
    }
    assert order[..|order|] == order;
  }

  lemma SoundIffNoFaults(config: Config, errors: seq<(string, ConnectionError)>)
    requires forall k, e :: (k, e) in errors <==>
                            k in config.connections && ConnectionFault(config.connections[k]) == Some(e)
    ensures errors == [] <==> AllSound(config)
  {
    if errors != [] {
      assert (errors[0].0, errors[0].1) in errors;
    }
    if !AllSound(config) {
      var k :| k in config.connections && ConnectionFault(config.connections[k]).Some?;
      assert (k, ConnectionFault(config.connections[k]).value) in errors;
    }
  }

  /** `Config::validate`: the checks in source order, and `serverTi` filled in from the longest
      server `ti` when it was left open. */
  method Validate(config: Config, order: seq<string>) returns (r: Result<Config, ConfigError>)
    requires Enumerates(order, config.connections)
    ensures r.Ok? <==>
            && (HasServer(config) ==> config.bindAddress.Some?)
            && |config.connections| > 0
            && AllSound(config)
    ensures r.Ok? ==> IsCompleted(config, r.value)
    ensures r == Err(MissingBindAddress) <==> HasServer(config) && config.bindAddress.None?
    ensures r == Err(NoConnections) <==> |config.connections| == 0
    ensures r.Err? && r.error.BadConnections? ==>
              forall k, e :: (k, e) in r.error.errors <==>
                             k in config.connections && ConnectionFault(config.connections[k]) == Some(e)
  {
    var longest := LongestServerTi(config, order);
    var serverTi := config.serverTi;
    if longest.Some? {
      if config.bindAddress.None? {
        return Err(MissingBindAddress);
      }
      if serverTi.None? {
        serverTi := longest;
      }
    }
    if |config.connections| == 0 {
      return Err(NoConnections);
    }
    var errors := Faults(config, order);
    SoundIffNoFaults(config, errors);
    if errors != [] {
      return Err(BadConnections(errors));
    }
    return Ok(config.(serverTi := serverTi));
  }
}
