/**
  Reading the JSON columns of the output CSV files. Every JSON column is read
  as text with no "NA" conversion, so each cell is a string (an empty cell is
  the empty string).
 */
module Parsing {
  import opened Wrappers
  import opened JsonValue

  /** The cells `parse_json_field` treats as absent before trying to decode them. */
  predicate BlankField(cell: string) {
    cell == "" || cell == "{}" || cell == "[]"
  }

  /**
    `parse_json_field`: `None` for a blank cell, for text `json.loads` rejects
    and for the JSON literal `null`; otherwise the decoded value. It never raises.
   */
  function ParseJsonField(loads: string -> Option<Json>, cell: string): (r: Option<Json>)
    ensures r != Some(Null)
    ensures r.Some? ==> !BlankField(cell) && loads(cell) == r
    ensures r.None? ==> BlankField(cell) || loads(cell) == None || loads(cell) == Some(Null)
  {
    if BlankField(cell) then None
    else match loads(cell)
      case None => None
      case Some(j) => if j.Null? then None else Some(j)
  }

  /**
    An empty dict or list and an empty cell read the same; only the exact
    texts `{}` and `[]` are short-circuited, so `[ ]` still decodes to a list.
   */
  lemma BlankFieldsReadAsAbsent(loads: string -> Option<Json>)
    requires loads("[ ]") == Some(Arr([]))
    ensures ParseJsonField(loads, "") == ParseJsonField(loads, "{}") == ParseJsonField(loads, "[]") == None
    ensures ParseJsonField(loads, "[ ]") == Some(Arr([]))
  {
  }

  /**
    When `json.loads` reads `{}` and `[]` as the empty containers and rejects
    the empty text, the field reader is `json.loads` with `null` read as
    `None`, for every cell that does not decode to an empty container.
   */
  lemma ParseJsonFieldAgreesWithLoads(loads: string -> Option<Json>, cell: string)
    requires loads("{}") == Some(Obj(map[])) && loads("[]") == Some(Arr([])) && loads("") == None
    requires loads(cell) != Some(Obj(map[])) && loads(cell) != Some(Arr([]))
    ensures ParseJsonField(loads, cell) == (if loads(cell) == Some(Null) then None else loads(cell))
  {
  }

  /**
    `parse_outputs_json`: always a dict. A blank cell, `{}`, text `json.loads`
    rejects and a decoded value that is not a dict all give the empty dict.
   */
  function ParseOutputsJson(loads: string -> Option<Json>, cell: string): (r: map<string, Json>)
    ensures cell != "" && cell != "{}" && loads(cell).Some? && loads(cell).value.Obj?
            ==> r == loads(cell).value.fields
    ensures r != map[] ==> cell != "" && cell != "{}" && loads(cell) == Some(Obj(r))
  {
    if cell == "" || cell == "{}" then map[]
    else match loads(cell)
      case Some(Obj(m)) => m
      case _ => map[]
  }

  /**
    The `{}` short-circuit changes nothing when `json.loads("{}")` is the
    empty dict: the reader is `json.loads` with every non-dict read as `{}`.
   */
  lemma ParseOutputsJsonAgreesWithLoads(loads: string -> Option<Json>, cell: string)
    requires loads("{}") == Some(Obj(map[]))
    requires loads("") == None
    ensures ParseOutputsJson(loads, cell)
         == (if loads(cell).Some? && loads(cell).value.Obj? then loads(cell).value.fields else map[])
  {
  }

  /** A list, a number or a string in the outputs column is indistinguishable from no outputs. */
  lemma NonDictOutputsReadAsEmpty(loads: string -> Option<Json>, cell: string)
    requires loads(cell).Some? && !loads(cell).value.Obj?
    ensures ParseOutputsJson(loads, cell) == ParseOutputsJson(loads, "") == map[]
  {
  }
}
