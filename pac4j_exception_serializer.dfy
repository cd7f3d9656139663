/**
 * The post-processing step of the service's exception serializer: after Lagom's own Jackson
 * deserialiser has rebuilt a throwable from the wire, a transport error carrying the 401 code is
 * turned into the repository's `Unauthorized` exception; everything else passes through.
 */
module Pac4jExceptionSerializer {
  import opened Transport

  /** The remap applied to what the Jackson deserialiser returned. */
  function Deserialize(deserialized: Throwable): (r: Throwable)
    ensures deserialized.TransportException? && deserialized.errorCode == UnauthorizedCode ==>
      r == TransportException(UnauthorizedException, deserialized.errorCode, deserialized.exceptionMessage)
    ensures !(deserialized.TransportException? && deserialized.errorCode == UnauthorizedCode) ==>
      r == deserialized
  {
    if deserialized.TransportException? && deserialized.errorCode == UnauthorizedCode then
      TransportException(UnauthorizedException, deserialized.errorCode, deserialized.exceptionMessage)
    else
      deserialized
  }

  /** Code and message survive the remap; only the exception's kind may change. */
  lemma DeserializeKeepsCodeAndMessage(t: Throwable)
    ensures Deserialize(t).TransportException? <==> t.TransportException?
    ensures t.TransportException? ==>
      Deserialize(t).errorCode == t.errorCode && Deserialize(t).exceptionMessage == t.exceptionMessage
    ensures t.TransportException? ==>
      (Deserialize(t).kind == UnauthorizedException <==> t.kind == UnauthorizedException || t.errorCode.http == 401)
  {
  }

  /** Remapping twice is remapping once. */
  lemma DeserializeIdempotent(t: Throwable)
    ensures Deserialize(Deserialize(t)) == Deserialize(t)
  {
  }
}
