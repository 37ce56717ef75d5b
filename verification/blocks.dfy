/**
 * What every block adapter has in common: the `(name, text)` items it emits,
 * the opaque error type, the marker text a failed render is replaced with, and
 * the rule that picks a block's template.
 */
module Blocks {
  import opened Wrappers

  /** An `anyhow::Error`: only its message is observable. */
  datatype Error = Error(message: string)

  /** One item of a block stream: the block's name and its freshly rendered text. */
  datatype Update = Update(name: string, value: string)

  /** The text an adapter emits in place of output it failed to produce or render. */
  const ERROR_MARKER: string := "Error"

  /** A block's template renderer: template text and the block's data, to text or an error. */
  type Renderer<!D> = (string, D) -> Result<string, Error>

  /** The text emitted for a render outcome: the output, or the marker when rendering failed. */
  function OrErrorMarker(rendered: Result<string, Error>): (text: string)
    ensures rendered.Ok? ==> text == rendered.value
    ensures rendered.Err? ==> text == ERROR_MARKER
  {
    match rendered
    case Ok(output) => output
    case Err(_) => ERROR_MARKER
  }

  /** The configured template when there is one, the adapter's default otherwise. */
  function TemplateOr(configured: Option<string>, default: string): (template: string)
    ensures configured.Some? ==> template == configured.value
    ensures configured.None? ==> template == default
  {
    match configured
    case Some(t) => t
    case None => default
  }
}
