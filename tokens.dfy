/**
 * The token stream both sniffs read: PHP_CodeSniffer's token records reduced
 * to the kinds the sniffs inspect, plus the diagnostic record they emit.
 */
module Tokens {

  /** The token kinds the sniffs distinguish; every other kind is `Other`
      (whitespace, comments, `(`, `->`, `;`, keywords they ignore, ...). */
  datatype TokenCode =
    | Extends            // T_EXTENDS
    | Implements         // T_IMPLEMENTS
    | String             // T_STRING (identifiers)
    | Variable           // T_VARIABLE
    | True               // T_TRUE
    | False              // T_FALSE
    | OpenCurly          // T_OPEN_CURLY_BRACKET
    | CloseCurly         // T_CLOSE_CURLY_BRACKET
    | OpenShortArray     // T_OPEN_SHORT_ARRAY
    | CloseShortArray    // T_CLOSE_SHORT_ARRAY
    | Array              // T_ARRAY
    | CloseParen         // T_CLOSE_PARENTHESIS
    | DoubleColon        // T_DOUBLE_COLON
    | DoubleArrow        // T_DOUBLE_ARROW
    | ConstString        // T_CONSTANT_ENCAPSED_STRING
    | Comma              // T_COMMA
    | Public             // T_PUBLIC
    | Protected          // T_PROTECTED
    | Other

  /** One token record: its kind and its raw text. Its index is its position. */
  datatype Token = Token(code: TokenCode, content: string)

  datatype Option<T> = None | Some(value: T)

  /** A diagnostic: the anchoring token index, the message and the error code. */
  datatype Error = Error(index: nat, message: string, code: string)

  /** Bounds-safe kind test: a missing token matches no kind. */
  predicate CodeAt(tokens: seq<Token>, j: int, c: TokenCode)
  {
    0 <= j < |tokens| && tokens[j].code == c
  }

  /** Bounds-safe text lookup: PHP reads a missing token's text as null,
      which concatenates as the empty string. */
  function ContentAt(tokens: seq<Token>, j: int): string
  {
    if 0 <= j < |tokens| then tokens[j].content else ""
  }

  /** `File::findNext(kinds, from)`: the first index at or after `from` whose
      token kind is in `kinds`, or None when there is none. */
  function FindNext(tokens: seq<Token>, kinds: set<TokenCode>, from: nat): (r: Option<nat>)
    decreases |tokens| - from
    ensures r.Some? ==> from <= r.value < |tokens| && tokens[r.value].code in kinds
    ensures r.Some? ==> forall j :: from <= j < r.value ==> tokens[j].code !in kinds
    ensures r.None? ==> forall j :: from <= j < |tokens| ==> tokens[j].code !in kinds
  {
    if from >= |tokens| then None
    else if tokens[from].code in kinds then Some(from)
    else FindNext(tokens, kinds, from + 1)
  }
}
