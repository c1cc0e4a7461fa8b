/**
 * The pieces of Rust syntax the contract emitter reads and writes.
 *
 * The emitter only moves these values around (copies, drops, inserts,
 * filters), so they are kept abstract: what a type, a pattern or a
 * block contains is never inspected, except for the one fact the
 * emitter tests, whether a receiver `&mut self` is mutable.
 */
module Ast {

  type Ident = string

  /** An opaque token of the source text. */
  datatype Token = Token(text: string)

  /** An outer attribute such as `#[doc = "..."]`, copied through verbatim. */
  datatype Attribute = Attribute(tokens: seq<Token>)

  /** The pattern of a captured argument (`start` in `start: u32`). */
  datatype Pat = PatIdent(ident: Ident) | PatOther(tokens: seq<Token>)

  /** A type; references are distinguished because the emitter writes `&T` and `&mut T`. */
  datatype Ty = Path(path: string) | Reference(mutable: bool, elem: Ty)

  /** `syn::ReturnType`: no `->` at all, or `-> ty`. */
  datatype ReturnType = DefaultReturn | Returns(ty: Ty)

  /**
   * A function argument as the contract language sees it:
   * `&self` / `&mut self` (SelfRef), `self` / `mut self` (SelfValue),
   * or a captured `pat: ty`.
   */
  datatype FnArg =
    | SelfRef(mutable: bool)
    | SelfValue(mutable: bool)
    | Captured(pat: Pat, ty: Ty)

  /** The declaration part of a handler signature: its inputs and its return type. */
  datatype FnDecl = FnDecl(inputs: seq<FnArg>, output: ReturnType)

  /** A handler body; never analysed, only copied. */
  datatype Block = Block(stmts: seq<Token>)

  /** One named field of the contract state. */
  datatype Field = Field(ident: Ident, ty: Ty)
}
