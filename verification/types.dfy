/**
  The entities shared by the chat page and the backend proxy: sources cited by
  the retrieval backend, the free-form "enhanced features" record, the two kinds
  of chat message and a stored chat session.
 */
module Types {

  /** An optional value; `None` stands for a JSON field that is absent, `null` or `undefined`. */
  datatype Option<+T> = None | Some(value: T)

  /** `o ?? fallback`: the value when present, else the fallback. */
  function ValueOr<T>(o: Option<T>, fallback: T): T {
    if o.Some? then o.value else fallback
  }

  /** A document fragment cited by the backend. The score is a JS number; it is only displayed. */
  datatype Source = Source(filename: string, score: real, contentPreview: string, path: string)

  /** One value of the `Record<string, string | boolean | number>` feature map. */
  datatype FeatureValue = Str(text: string) | Bool(flag: bool) | Num(number: real)

  type Features = map<string, FeatureValue>

  /**
    A chat message. The source uses one record with optional fields; here the
    user variant cannot carry sources or features.
   */
  datatype Message =
    | UserMessage(content: string)
    | AssistantMessage(content: string, sources: Option<seq<Source>>,
                       totalSources: Option<int>, features: Option<Features>)

  /** A stored conversation; the timestamps are ISO-8601 strings produced by the caller. */
  datatype Session = Session(id: string, title: string, messages: seq<Message>,
                             timestamp: string, lastUpdated: string)
}
