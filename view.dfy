/** What the component renders from its state: the precedence of the three render
    branches and the image URL of a card. */
module View {
  import opened Wrappers
  import opened Products

  /** The characters JavaScript's `String.prototype.trim` removes: WhiteSpace (tab,
      vertical tab, form feed, space, no-break space, byte order mark and the other
      space separators) and LineTerminator (LF, CR, U+2028, U+2029). */
  predicate IsJsWhitespace(c: char) {
    c == '\t' || c == '\n' || c == '\U{000B}' || c == '\U{000C}' || c == '\r' ||
    c == ' ' || c == '\U{00A0}' || c == '\U{1680}' || ('\U{2000}' <= c <= '\U{200A}') ||
    c == '\U{2028}' || c == '\U{2029}' || c == '\U{202F}' || c == '\U{205F}' ||
    c == '\U{3000}' || c == '\U{FEFF}'
  }

  /** `s` without its leading whitespace. */
  function TrimStart(s: string): (r: string)
    ensures |r| <= |s| && r == s[|s| - |r|..]
    ensures forall i :: 0 <= i < |s| - |r| ==> IsJsWhitespace(s[i])
    ensures r == [] || !IsJsWhitespace(r[0])
  {
    if s != [] && IsJsWhitespace(s[0]) then TrimStart(s[1..]) else s
  }

  /** `s` without its trailing whitespace. */
  function TrimEnd(s: string): (r: string)
    ensures |r| <= |s| && r == s[..|r|]
    ensures forall i :: |r| <= i < |s| ==> IsJsWhitespace(s[i])
    ensures r == [] || !IsJsWhitespace(r[|r| - 1])
  {
    if s != [] && IsJsWhitespace(s[|s| - 1]) then TrimEnd(s[..|s| - 1]) else s
  }

  function Trim(s: string): string {
    TrimEnd(TrimStart(s))
  }

  /** Trimming leaves nothing exactly when every character is whitespace. */
  lemma TrimEmptyIff(s: string)
    ensures Trim(s) == [] <==> forall i :: 0 <= i < |s| ==> IsJsWhitespace(s[i])
  {
  }

  /** The placeholder shown when a product has no usable image. */
  const FallbackImage: string :=
    "https://images.unsplash.com/photo-1556909114-f6e7ad7d3136?w=300&h=200&fit=crop&crop=center"

  /** `getProductImage`: the product's own image when it has a character other than
      whitespace, the fallback URL otherwise. */
  function ProductImage(p: Product): (url: string)
    ensures (exists i :: 0 <= i < |p.image| && !IsJsWhitespace(p.image[i])) ==> url == p.image
    ensures (forall i :: 0 <= i < |p.image| ==> IsJsWhitespace(p.image[i])) ==> url == FallbackImage
    ensures url != ""
  {
    TrimEmptyIff(p.image);
    if p.image != "" && Trim(p.image) != "" then p.image else FallbackImage
  }

  /** The three branches of the render: skeleton placeholders, the error card with
      its retry button, or the header with the empty-state message or the grid. */
  datatype RenderMode = Skeleton | ErrorCard(message: string) | EmptyState | Grid(cards: seq<Product>)

  /** `if (error)`: JavaScript truthiness, so an empty message would not count. */
  predicate ErrorShown(error: Option<string>) {
    error.Some? && error.value != ""
  }

  /** `loading` wins over everything; then a truthy error; then an empty list gives
      the empty state, and any other list the grid of its products. */
  function RenderModeOf(loading: bool, error: Option<string>, products: seq<Product>): (mode: RenderMode)
    ensures mode.Skeleton? <==> loading
    ensures mode.ErrorCard? <==> !loading && ErrorShown(error)
    ensures mode.ErrorCard? ==> mode.message == error.value
    ensures mode.EmptyState? <==> !loading && !ErrorShown(error) && products == []
    ensures mode.Grid? ==> mode.cards == products && products != []
  {
    if loading then Skeleton
    else if ErrorShown(error) then ErrorCard(error.value)
    else if |products| == 0 then EmptyState
    else Grid(products)
  }
}
