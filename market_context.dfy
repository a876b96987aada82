// The market context recorded before selection: a default record (status
// "unknown", no bases, the default note, level v0) that the caller's inputs
// may override field by field. The creation time is a parameter.
module MarketContext {
  import opened Wrappers

  const ContextVersion: string := "v0"
  const DefaultMarketStatus: string := "unknown"
  const DefaultNotes: string := "관찰 데이터 수집 단계"

  /** The context record. */
  datatype Context = Context(date: string, contextLevel: string, marketStatus: string,
                             selectionBasis: seq<string>, exclusionBasis: seq<string>,
                             notes: string, createdAt: string)

  /** A basis argument: a list, or some other value the caller passed. */
  datatype BasisArg = ListArg(items: seq<string>) | NotList

  /** The statuses the context accepts. */
  predicate ValidStatus(status: string)
  {
    status == "unknown" || status == "observed"
  }

  /** `create_default_context` at time `now`. */
  function DefaultContext(date: string, now: string): (c: Context)
    ensures c.date == date && c.createdAt == now
    ensures c.contextLevel == ContextVersion && c.marketStatus == DefaultMarketStatus
    ensures c.selectionBasis == [] && c.exclusionBasis == [] && c.notes == DefaultNotes
    ensures ValidStatus(c.marketStatus)
  {
    Context(date, ContextVersion, DefaultMarketStatus, [], [], DefaultNotes, now)
  }

  /** What a basis argument stores: the list itself, or [] for a non-list. */
  function BasisOf(arg: BasisArg): seq<string>
  {
    if arg.ListArg? then arg.items else []
  }

  /** `create_context`: starts from the default and overwrites each field
      whose argument is given; a status other than "unknown" or "observed"
      is ignored, and a non-list basis becomes []. */
  method CreateContext(date: string, now: string, marketStatus: Option<string>,
                       selectionBasis: Option<BasisArg>, exclusionBasis: Option<BasisArg>,
                       notes: Option<string>)
    returns (context: Context)
    ensures context.date == date && context.createdAt == now && context.contextLevel == ContextVersion
    ensures context.marketStatus ==
      (if marketStatus.Some? && ValidStatus(marketStatus.value) then marketStatus.value else DefaultMarketStatus)
    ensures ValidStatus(context.marketStatus)
    ensures context.selectionBasis == (if selectionBasis.Some? then BasisOf(selectionBasis.value) else [])
    ensures context.exclusionBasis == (if exclusionBasis.Some? then BasisOf(exclusionBasis.value) else [])
    ensures context.notes == notes.GetOr(DefaultNotes)
    ensures marketStatus.None? && selectionBasis.None? && exclusionBasis.None? && notes.None? ==>
      context == DefaultContext(date, now)
  {
    context := DefaultContext(date, now);
    if marketStatus.Some? {
      if marketStatus.value == "unknown" || marketStatus.value == "observed" {
        context := context.(marketStatus := marketStatus.value);
      }
    }
    if selectionBasis.Some? {
      context := context.(selectionBasis := if selectionBasis.value.ListArg? then selectionBasis.value.items else []);
    }
    if exclusionBasis.Some? {
      context := context.(exclusionBasis := if exclusionBasis.value.ListArg? then exclusionBasis.value.items else []);
    }
    if notes.Some? {
      context := context.(notes := notes.value);
    }
  }
}
