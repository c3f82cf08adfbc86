/**
 * DatabaseConnections: the named connections of a test and the name used
 * when a test does not say which one it wants. Both fields are final and
 * only read, so the holder is a value here.
 */
module Connections {
  import opened Wrappers
  import opened JavaStrings

  /** The two runtime exceptions the lookups raise. */
  datatype ConnectionError =
    | IllegalArgument   // no name and no default name
    | IllegalState(connectionName: string)   // no connection under the resolved name

  /**
   * connectionByName may map a name to null (None); defaultName may be
   * null. C stands for the connection objects, which are not modelled.
   */
  datatype DatabaseConnections<C> = DatabaseConnections(connectionByName: map<string, Option<C>>,
                                                        defaultName: Option<string>)

  /** determineConnectionName: a given name wins; an absent or empty one falls back to the default. */
  function DetermineConnectionName<C>(connections: DatabaseConnections<C>, name: Option<string>): (r: Result<string, ConnectionError>)
    ensures HasLength(name) ==> r == Success(name.value)
    ensures !HasLength(name) && connections.defaultName.Some? ==> r == Success(connections.defaultName.value)
    ensures r.Failure? <==> !HasLength(name) && connections.defaultName.None?
    ensures r.Failure? ==> r.error == IllegalArgument
  {
    if name.None? || |name.value| == 0 then
      if connections.defaultName.None? then Failure(IllegalArgument)
      else Success(connections.defaultName.value)
    else Success(name.value)
  }

  /** get: the connection stored under the resolved name. */
  function Get<C>(connections: DatabaseConnections<C>, name: Option<string>): (r: Result<C, ConnectionError>)
    ensures DetermineConnectionName(connections, name).Failure? ==> r == Failure(IllegalArgument)
    ensures DetermineConnectionName(connections, name).Success? ==>
      var resolved := DetermineConnectionName(connections, name).value;
      if resolved in connections.connectionByName && connections.connectionByName[resolved].Some?
      then r == Success(connections.connectionByName[resolved].value)
      else r == Failure(IllegalState(resolved))
  {
    match DetermineConnectionName(connections, name)
    case Failure(e) => Failure(e)
    case Success(resolved) =>
      var connection := if resolved in connections.connectionByName then connections.connectionByName[resolved] else None;
      if connection.None? then Failure(IllegalState(resolved)) else Success(connection.value)
  }

  /** Resolving a resolved name again gives it back: the fallback is applied once. */
  lemma ResolutionIsIdempotent<C>(connections: DatabaseConnections<C>, name: Option<string>)
    requires DetermineConnectionName(connections, name).Success?
    ensures var resolved := DetermineConnectionName(connections, name).value;
      DetermineConnectionName(connections, Some(resolved)) == Success(resolved)
  {
  }

  /** Asking with no name, or with the empty name, is asking for the default connection. */
  lemma EmptyNameMeansDefault<C>(connections: DatabaseConnections<C>)
    ensures Get(connections, None) == Get(connections, Some(""))
    ensures connections.defaultName.Some? ==> Get(connections, None) == Get(connections, connections.defaultName)
  {
  }
}
