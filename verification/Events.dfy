/** The rows of the memory event table. */
module Events {
  import opened Outcomes

  datatype Event = Event(id: int, eventType: string, title: string, summary: string, evidence: Option<string>,
                         source: string, confidence: int, status: string, tags: seq<string>, relatedIds: seq<int>,
                         createdBy: string, createdAt: string, updatedAt: string, version: int)
}
