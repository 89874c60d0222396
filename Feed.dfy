/**
  The upstream vulnerability feed as the pipeline consumes it: one decoded item
  of the NVD "modified" JSON feed, and the kinds of event the pipeline records.
  Decoding (download, gzip, JSON) is not modelled; an item arrives as a value.
*/
module Feed {

  /** A JSON value, for the parts of an item the pipeline passes on unread. */
  datatype Json =
    | Null
    | Bool(b: bool)
    | Num(n: real)
    | Str(s: string)
    | Arr(items: seq<Json>)
    | Obj(fields: seq<(string, Json)>)

  /**
    One feed item. Timestamps are the upstream ISO dates, as integers.
    - id: cve.CVE_data_meta.ID
    - descriptions: the values of cve.description.description_data, in order
    - problemTypes: the "description" list of each cve.problemtype.problemtype_data entry
    - configurations: the configurations block, left uninterpreted
    - impact: the impact blocks present ("baseMetricV2", "baseMetricV3", ...),
      each mapped to its cvss baseScore
  */
  datatype CveJson = CveJson(
    id: string,
    descriptions: seq<string>,
    problemTypes: seq<Json>,
    configurations: Json,
    impact: map<string, real>,
    publishedDate: int,
    lastModifiedDate: int)

  const BaseMetricV2 := "baseMetricV2"
  const BaseMetricV3 := "baseMetricV3"

  /** The event types of the change log. */
  datatype EventType = NewCve | FirstTime | References | Cvss | Cpes | Summary | Cwes

  /** What one check reports: the event type and its self-describing details. */
  datatype Finding = Finding(kind: EventType, details: Json)

  /** The vendor → products dictionary returned by convert_cpes, as its items in order. */
  type VendorProducts = seq<(string, seq<string>)>
}
