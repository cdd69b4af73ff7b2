/** The collection service's data as the proxy sees it: object records and
    the outcomes of fetching one by ID. */
module Museum {
  import opened Js

  /** An object ID of the collection service. */
  type ObjectID = int

  /** The JSON record of one collection object. Only the fields the proxy or
      the browser reads are named; every other field is kept in `otherFields`.
      A missing (or `null`) field is `None`. */
  datatype ObjectDetail = ObjectDetail(
    objectID: ObjectID,
    title: Option<string>,
    culture: Option<string>,
    dynasty: Option<string>,
    objectDate: Option<string>,
    primaryImage: Option<string>,
    additionalImages: Option<seq<string>>,
    otherFields: map<string, string>)

  /** The outcome of `GET .../objects/{id}` on the collection service: the
      record, a 404 answer, or any other failure (another status, a network
      error), with its error message. */
  datatype Fetched = Found(obj: ObjectDetail) | NotFound | Failed(message: string)
}
