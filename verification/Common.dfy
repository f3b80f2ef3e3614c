/** Values shared by the models of the gateway's journals. */
module Common {

  datatype Option<+T> = None | Some(value: T)

  /** What an atomic whole-file write did.  The rename either happened or did
      not; a write that reports failure may still have renamed, because the
      directory flush comes last. */
  datatype FileWrite = Committed | LostBeforeRename | LostAfterRename
  {
    predicate Returned() { Committed? }
    predicate Replaced() { !LostBeforeRename? }
  }

  /** The file a reader finds after an atomic write of `next` over `was`. */
  function FileAfter<T>(was: T, next: T, w: FileWrite): T {
    if w.Replaced() then next else was
  }

  /** JavaScript truthiness of an optional string field. */
  predicate Truthy(field: Option<string>) {
    field.Some? && field.value != ""
  }

  /** What `trim` removes: white space and line terminators of ECMAScript. */
  predicate IsWhite(c: char) {
    || '\t' <= c <= '\r' || c == ' ' || c == '\U{A0}' || c == '\U{1680}' || '\U{2000}' <= c <= '\U{200A}'
    || c == '\U{2028}' || c == '\U{2029}' || c == '\U{202F}' || c == '\U{205F}' || c == '\U{3000}' || c == '\U{FEFF}'
  }

  predicate Blank(text: string) { forall c :: c in text ==> IsWhite(c) }

  function OrElse(field: Option<string>, other: string): string {
    if field.Some? then field.value else other
  }
}
