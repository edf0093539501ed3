/** The replay override a context carries from the runner to the tool executor. */
module ReplayContext {
  import opened Domain

  datatype Override = Override(toolCallID: string, fingerprint: string)

  /** A context is a chain of values; `Other` stands for every value or deadline that is not an
      override, and a cleared override is a `Carrying` link without payload. */
  datatype Context = Background | Other(parent: Context) | Carrying(parent: Context, payload: Option<Override>)

  function WithOverride(ctx: Context, override: Override): Context {
    Carrying(ctx, Some(override))
  }

  function WithoutOverride(ctx: Context): Context {
    Carrying(ctx, None)
  }

  function OverrideOf(ctx: Context): Option<Override> {
    match ctx
    case Background => None
    case Other(parent) => OverrideOf(parent)
    case Carrying(_, payload) => payload
  }
}
