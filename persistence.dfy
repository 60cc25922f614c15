/**
 What a load response does to the character sheet. The transport (the GET
 request and JSON decoding) is outside the model: a response arrives here
 already decoded, each recognised field either present or absent.
 */
module Persistence {
  import opened AttributeRules

  datatype Option<T> = None | Some(value: T)

  /** The part of the sheet that is saved and loaded. */
  datatype Sheet = Sheet(attributes: Attributes, skillPoints: map<string, int>)

  /** The recognised fields of a response body; either may be missing. */
  datatype Payload = Payload(attributes: Option<Attributes>, skillPoints: Option<map<string, int>>)

  /**
   A decoded response: an optional `body` envelope, and the fields found at
   the top level, which are read only when there is no envelope.
   */
  datatype Response = Response(body: Option<Payload>, top: Payload)

  /** `data.body || data`. */
  function Unwrap(data: Response): (p: Payload)
    ensures data.body.Some? ==> p == data.body.value
    ensures data.body.None? ==> p == data.top
  {
    if data.body.Some? then data.body.value else data.top
  }

  /** The new value of one sheet field: the response's if it has one, else the current one. */
  function Pick<T>(given: Option<T>, current: T): (r: T)
    ensures given.None? ==> r == current
    ensures given.Some? ==> r == given.value
  {
    match given
    case Some(v) => v
    case None => current
  }

  /**
   The sheet after a load: attributes are replaced when the unwrapped response
   carries attributes, skill points when it carries skill points, each
   independently of the other.
   */
  function Merge(s: Sheet, data: Response): (r: Sheet)
    ensures Unwrap(data).attributes.None? ==> r.attributes == s.attributes
    ensures Unwrap(data).attributes.Some? ==> r.attributes == Unwrap(data).attributes.value
    ensures Unwrap(data).skillPoints.None? ==> r.skillPoints == s.skillPoints
    ensures Unwrap(data).skillPoints.Some? ==> r.skillPoints == Unwrap(data).skillPoints.value
  {
    var p := Unwrap(data);
    Sheet(Pick(p.attributes, s.attributes), Pick(p.skillPoints, s.skillPoints))
  }

  /** Loading the same response twice leaves the sheet as loading it once. */
  lemma MergeIdempotent(s: Sheet, data: Response)
    ensures Merge(Merge(s, data), data) == Merge(s, data)
  {
  }

  /**
   Each field of the loaded sheet depends only on the same field of the
   current sheet: a response's attributes never reach the skill points, and
   the other way round.
   */
  lemma MergeFieldsIndependent(s: Sheet, t: Sheet, data: Response)
    ensures s.attributes == t.attributes ==> Merge(s, data).attributes == Merge(t, data).attributes
    ensures s.skillPoints == t.skillPoints ==> Merge(s, data).skillPoints == Merge(t, data).skillPoints
  {
  }

  /** A response carrying both fields fixes the whole sheet, whatever was there before. */
  lemma MergeCompleteOverwrites(s: Sheet, t: Sheet, data: Response)
    requires Unwrap(data).attributes.Some? && Unwrap(data).skillPoints.Some?
    ensures Merge(s, data) == Merge(t, data)
  {
  }

  /** The envelope is transparent: an enveloped payload loads like the same payload at the top level. */
  lemma MergeEnvelopeTransparent(s: Sheet, p: Payload, top: Payload)
    ensures Merge(s, Response(Some(p), top)) == Merge(s, Response(None, p))
  {
  }
}
