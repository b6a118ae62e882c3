/**
 * The layout logic of the product card renderer: the greedy word wrap used for the
 * product name and the description, and the vertical cursor that places the name,
 * the category badge, the description and the price button on a 400 x 600 card.
 *
 * Text measurement is a parameter: `measure(font, text)` is the width the canvas
 * reports for `text` in that font. Pixels are whole numbers here; the cover-fit
 * scaling of the product photo is not modelled.
 */
module CardGenerator {
  import opened Wrappers
  import opened Strings
  import opened Seqs
  import opened Products
  import opened Services

  // ---------------------------------------------------------------------------
  // Greedy word wrap.

  /**
   * The lines produced from the line being built, `current`, and the words still
   * to place: a word joins the current line when the joined line measures less
   * than `maxWidth`; otherwise the current line is closed and the word starts the
   * next one.
   */
  function Wrap(current: string, rest: seq<string>, measure: string -> nat, maxWidth: int): (lines: seq<string>)
    ensures 1 <= |lines| <= |rest| + 1
    decreases |rest|
  {
    if rest == [] then [current]
    else if measure(current + " " + rest[0]) < maxWidth then Wrap(current + " " + rest[0], rest[1..], measure, maxWidth)
    else [current] + Wrap(rest[0], rest[1..], measure, maxWidth)
  }

  /** The lines of `text`, whose words are its pieces between single spaces. */
  function WrapSpec(text: string, measure: string -> nat, maxWidth: int): seq<string>
  {
    var words := Split(text, ' ');
    Wrap(words[0], words[1..], measure, maxWidth)
  }

  /** `wrapText(ctx, text, maxWidth, fontSize)`; the font size only selects the measure. */
  method WrapText(text: string, measure: string -> nat, maxWidth: int) returns (lines: seq<string>)
    ensures lines == WrapSpec(text, measure, maxWidth)
  {
    var words := Split(text, ' ');
    lines := [];
    var currentLine := words[0];
    var i := 1;
    while i < |words|
      invariant 1 <= i <= |words|
      invariant lines + Wrap(currentLine, words[i..], measure, maxWidth) == Wrap(words[0], words[1..], measure, maxWidth)
    {
      var word := words[i];
      assert words[i..][0] == word && words[i..][1..] == words[i + 1..];
      if measure(currentLine + " " + word) < maxWidth {
        currentLine := currentLine + " " + word;
      } else {
        assert lines + Wrap(currentLine, words[i..], measure, maxWidth)
          == (lines + [currentLine]) + Wrap(word, words[i + 1..], measure, maxWidth);
        lines := lines + [currentLine];
        currentLine := word;
      }
      i := i + 1;
    }
    assert words[i..] == [];
    lines := lines + [currentLine];
  }

  /** Joining the lines with single spaces gives back the words joined with single spaces. */
  lemma {:induction false} WrapJoin(current: string, rest: seq<string>, measure: string -> nat, maxWidth: int)
    ensures Join(Wrap(current, rest, measure, maxWidth), ' ') == Join([current] + rest, ' ')
    decreases |rest|
  {
    if rest != [] {
      var w, more := rest[0], rest[1..];
      if measure(current + " " + w) < maxWidth {
        WrapJoin(current + " " + w, more, measure, maxWidth);
        JoinExtend(current, rest);
      } else {
        WrapJoin(w, more, measure, maxWidth);
        assert [w] + more == rest;
        JoinCons(current, Wrap(w, more, measure, maxWidth), ' ');
        JoinCons(current, rest, ' ');
      }
    }
  }

  /** Gluing the next word onto the current line with a space does not change the joined text. */
  lemma JoinExtend(current: string, rest: seq<string>)
    requires rest != []
    ensures Join([current + " " + rest[0]] + rest[1..], ' ') == Join([current] + rest, ' ')
  {
    var w, more := rest[0], rest[1..];
    assert rest == [w] + more;
    JoinCons(current, rest, ' ');
    if more == [] {
      assert [current + " " + w] + more == [current + " " + w];
    } else {
      JoinCons(current + " " + w, more, ' ');
      JoinCons(w, more, ' ');
    }
  }

  /** Wrapping never changes the text: the lines joined with spaces are the input. */
  lemma WrapSpecJoin(text: string, measure: string -> nat, maxWidth: int)
    ensures Join(WrapSpec(text, measure, maxWidth), ' ') == text
  {
    var words := Split(text, ' ');
    WrapJoin(words[0], words[1..], measure, maxWidth);
    assert [words[0]] + words[1..] == words;
    JoinSplit(text, ' ');
  }

  /** The first line is the line being built, possibly extended by further words. */
  lemma {:induction false} WrapFirstLine(current: string, rest: seq<string>, measure: string -> nat, maxWidth: int)
    ensures var first := Wrap(current, rest, measure, maxWidth)[0];
      first == current || exists x :: first == current + " " + x
    decreases |rest|
  {
    if rest != [] && measure(current + " " + rest[0]) < maxWidth {
      var c := current + " " + rest[0];
      WrapFirstLine(c, rest[1..], measure, maxWidth);
      var first := Wrap(current, rest, measure, maxWidth)[0];
      if first == c {
        assert first == current + " " + rest[0];
      } else {
        var x :| first == c + " " + x;
        assert first == current + " " + (rest[0] + " " + x);
      }
    }
  }

  /** The first word of a line that starts with a space-free word is that word. */
  lemma FirstWordOfLine(w: string, line: string)
    requires ' ' !in w
    requires line == w || exists x :: line == w + " " + x
    ensures Split(line, ' ')[0] == w
  {
    if line == w {
      SplitNoSep(w, ' ');
    } else {
      var x :| line == w + " " + x;
      SplitHead(w, x, ' ');
    }
  }

  /**
   * A line is closed only when the next word would not fit: the closed line, a
   * space and the first word of the following line measure at least `maxWidth`.
   */
  lemma {:induction false} WrapBreaksOnlyOnOverflow(current: string, rest: seq<string>, measure: string -> nat, maxWidth: int, j: nat)
    requires forall k :: 0 <= k < |rest| ==> ' ' !in rest[k]
    requires j + 1 < |Wrap(current, rest, measure, maxWidth)|
    ensures var lines := Wrap(current, rest, measure, maxWidth);
      measure(lines[j] + " " + Split(lines[j + 1], ' ')[0]) >= maxWidth
    decreases |rest|
  {
    var w, more := rest[0], rest[1..];
    var lines := Wrap(current, rest, measure, maxWidth);
    if measure(current + " " + w) < maxWidth {
      assert lines == Wrap(current + " " + w, more, measure, maxWidth);
      WrapBreaksOnlyOnOverflow(current + " " + w, more, measure, maxWidth, j);
    } else {
      var tail := Wrap(w, more, measure, maxWidth);
      assert lines == [current] + tail;
      if j == 0 {
        WrapFirstLine(w, more, measure, maxWidth);
        FirstWordOfLine(w, tail[0]);
      } else {
        WrapBreaksOnlyOnOverflow(w, more, measure, maxWidth, j - 1);
      }
    }
  }

  /** Every line either measures less than `maxWidth` or is one word that is too wide alone: words are never split. */
  lemma {:induction false} WrapLineFits(current: string, rest: seq<string>, measure: string -> nat, maxWidth: int, j: nat)
    requires forall k :: 0 <= k < |rest| ==> ' ' !in rest[k]
    requires ' ' !in current || measure(current) < maxWidth
    requires j < |Wrap(current, rest, measure, maxWidth)|
    ensures var line := Wrap(current, rest, measure, maxWidth)[j];
      ' ' !in line || measure(line) < maxWidth
    decreases |rest|
  {
    if rest != [] {
      var w, more := rest[0], rest[1..];
      var lines := Wrap(current, rest, measure, maxWidth);
      if measure(current + " " + w) < maxWidth {
        assert lines == Wrap(current + " " + w, more, measure, maxWidth);
        WrapLineFits(current + " " + w, more, measure, maxWidth, j);
      } else {
        var tail := Wrap(w, more, measure, maxWidth);
        assert lines == [current] + tail;
        if j > 0 {
          WrapLineFits(w, more, measure, maxWidth, j - 1);
        }
      }
    }
  }

  /** The properties of a wrapped text, for any measure and width. */
  lemma WrapSpecProperties(text: string, measure: string -> nat, maxWidth: int)
    ensures var lines := WrapSpec(text, measure, maxWidth);
      && 1 <= |lines| <= |Split(text, ' ')|
      && Join(lines, ' ') == text
      && (forall j :: 0 <= j < |lines| - 1 ==> measure(lines[j] + " " + Split(lines[j + 1], ' ')[0]) >= maxWidth)
      && (forall j :: 0 <= j < |lines| ==> ' ' !in lines[j] || measure(lines[j]) < maxWidth)
  {
    var words := Split(text, ' ');
    assert forall k :: 0 <= k < |words[1..]| ==> words[1..][k] == words[k + 1];
    WrapSpecJoin(text, measure, maxWidth);
    var lines := WrapSpec(text, measure, maxWidth);
    forall j | 0 <= j < |lines| - 1
      ensures measure(lines[j] + " " + Split(lines[j + 1], ' ')[0]) >= maxWidth
    {
      WrapBreaksOnlyOnOverflow(words[0], words[1..], measure, maxWidth, j);
    }
    forall j | 0 <= j < |lines|
      ensures ' ' !in lines[j] || measure(lines[j]) < maxWidth
    {
      WrapLineFits(words[0], words[1..], measure, maxWidth, j);
    }
  }

  // ---------------------------------------------------------------------------
  // The "No Image" placeholder.

  const PlaceholderGrey: string := "#D1D5DB"
  const GrayText: string := "#6B7280"
  const NoImage: string := "No Image"

  /** A JavaScript argument value as the placeholder routine receives it. */
  datatype Arg = Num(n: int) | Str(s: string)

  /** A text drawn at a possibly fractional position, in a colour. */
  datatype Label = Label(text: string, x: real, y: real, color: string)

  /** A grey square with, when the canvas draws it, the "No Image" caption. */
  datatype Placeholder = Placeholder(x: int, y: int, size: int, fill: string, caption: Option<Label>)

  /**
   * The body of `drawPlaceholder(ctx, x, y, size, color, canvasWidth)`, for the
   * argument kinds the calls pass: a number or a colour string. Assigning a number
   * to `fillStyle` is ignored (it is not a colour), so the caption keeps the
   * square's grey; a caption whose x is `NaN` (a non-numeric string halved) is not
   * drawn at all. A numeric string width and an invalid colour string are not
   * modelled: no call passes either.
   */
  function DrawPlaceholder(x: int, y: int, size: int, color: Arg, canvasWidth: Arg): (p: Placeholder)
    ensures p.fill == PlaceholderGrey && p.x == x && p.y == y && p.size == size
    ensures p.caption.Some? <==> canvasWidth.Num?
    ensures p.caption.Some? ==> p.caption.value.text == NoImage && 2.0 * p.caption.value.x == canvasWidth.n as real
    ensures p.caption.Some? ==> p.caption.value.color == (if color.Str? then color.s else PlaceholderGrey)
  {
    var labelColor := if color.Str? then color.s else PlaceholderGrey;
    var caption :=
      if canvasWidth.Num? then Some(Label(NoImage, canvasWidth.n as real / 2.0, y as real + size as real / 2.0, labelColor))
      else None;
    Placeholder(x, y, size, PlaceholderGrey, caption)
  }

  /**
   * A call `drawPlaceholder(ctx, ...args)`: the parameters after `ctx` take the
   * first five arguments in order and any further argument is dropped.
   */
  function CallPlaceholder(args: seq<Arg>): (p: Option<Placeholder>)
    requires |args| >= 5
    ensures p.Some? <==> args[0].Num? && args[1].Num? && args[2].Num?
    ensures p.Some? ==> p.value == DrawPlaceholder(args[0].n, args[1].n, args[2].n, args[3], args[4])
  {
    if args[0].Num? && args[1].Num? && args[2].Num? then
      Some(DrawPlaceholder(args[0].n, args[1].n, args[2].n, args[3], args[4]))
    else None
  }

  // ---------------------------------------------------------------------------
  // The card layout.

  const CardWidth: int := 400
  const CardHeight: int := 600
  const HeaderY: int := 30
  const SeparatorY: int := HeaderY + 55
  const ImageSectionY: int := SeparatorY + 20
  const ImageSectionHeight: int := 280
  const ImageSize: int := 240
  const ImageX: int := (CardWidth - ImageSize) / 2
  const ImageY: int := ImageSectionY + 20
  const TextLeft: int := 30
  const TextWidth: int := CardWidth - 60
  const NameTop: int := ImageSectionY + ImageSectionHeight + 25
  const NameStep: int := 26
  const DescriptionStep: int := 20
  const ButtonY: int := CardHeight - 80
  const ButtonHeight: int := 60
  /** The price prefix exactly as the source text spells it (a mis-decoded rupee sign). */
  const CurrencyPrefix: string := "\U{E2}\U{201A}\U{B9}"

  /** The arguments of the two placeholder calls, after `ctx`: seven arguments for six parameters. */
  const PlaceholderArgsAsWritten: seq<Arg> := [Num(ImageX), Num(ImageY), Num(ImageSize), Num(ImageSize), Str(GrayText), Num(CardWidth)]
  /** The evidently intended call: one size, then the colour and the canvas width. */
  const PlaceholderArgsIntended: seq<Arg> := [Num(ImageX), Num(ImageY), Num(ImageSize), Str(GrayText), Num(CardWidth)]

  /** As written, the colour slot gets `240` and the width slot a colour string: the "No Image" caption is never drawn. */
  lemma PlaceholderAsWrittenDrawsNoLabel()
    ensures CallPlaceholder(PlaceholderArgsAsWritten).Some?
    ensures CallPlaceholder(PlaceholderArgsAsWritten).value.caption == None
  {
  }

  /** The intended call draws "No Image" in grey text, centred on the card and on the image box. */
  lemma PlaceholderIntendedDrawsLabel()
    ensures CallPlaceholder(PlaceholderArgsIntended)
      == Some(Placeholder(ImageX, ImageY, ImageSize, PlaceholderGrey, Some(Label(NoImage, 200.0, 245.0, GrayText))))
  {
  }

  /**
   * The placeholder the card draws, from the call as it is written: the grey
   * square over the image box, and no caption.
   */
  function CardPlaceholder(): (p: Placeholder)
    ensures p.x == ImageX && p.y == ImageY && p.size == ImageSize && p.fill == PlaceholderGrey
    ensures p.caption.None?
  {
    CallPlaceholder(PlaceholderArgsAsWritten).value
  }

  datatype Font = NameFont | BadgeFont | DescriptionFont

  /** The measure of one font. */
  function Measurer(measure: (Font, string) -> nat, font: Font): string -> nat
  {
    s => measure(font, s)
  }

  datatype TextLine = TextLine(text: string, x: int, y: int)
  datatype Badge = Badge(x: int, y: int, width: int, height: int, caption: TextLine)
  datatype PriceButton = PriceButton(x: int, y: int, width: int, height: int, caption: TextLine)
  datatype ImageArea = Photo | NoPhoto(placeholder: Placeholder)

  /** What the card shows, and where the cursor ends. */
  datatype Card = Card(
    logo: bool,
    image: ImageArea,
    nameLines: seq<TextLine>,
    badge: Option<Badge>,
    descriptionLines: seq<TextLine>,
    price: Option<PriceButton>,
    cursor: int)

  /** `lines.slice(0, 2)`, drawn at the left margin from `top`, `step` apart. */
  function FirstTwoLines(lines: seq<string>, top: int, step: int): (r: seq<TextLine>)
    ensures |r| == Min(2, |lines|)
    ensures forall k :: 0 <= k < |r| ==> r[k].text == lines[k] && r[k].x == TextLeft && r[k].y == top + k * step
  {
    seq(Min(2, |lines|), k requires 0 <= k < Min(2, |lines|) => TextLine(lines[k], TextLeft, top + k * step))
  }

  /** The description shown: the custom one if non-empty, else the product's. */
  function CardDescription(product: Product, customDescription: string): (d: string)
    ensures d == "" <==> customDescription == "" && product.description == ""
    ensures customDescription != "" ==> d == customDescription
  {
    OrElse(customDescription, product.description)
  }

  /**
   * The card, section by section: each section starts where the previous one left
   * the cursor, except the price button, which sits at a fixed height.
   */
  function Layout(product: Product, customPrice: string, customDescription: string,
                  measure: (Font, string) -> nat, logoLoads: bool, imageLoads: bool): (card: Card)
    ensures |card.nameLines| <= 2 && |card.descriptionLines| <= 2
    ensures card.badge.Some? <==> product.category != ""
    ensures card.price.Some? <==> customPrice != ""
    ensures card.image == Photo <==> product.image_url != "" && imageLoads
    ensures card.image.NoPhoto? ==> card.image.placeholder.caption.None?
  {
    var name := WrapSpec(ToUpper(product.product_name), Measurer(measure, NameFont), TextWidth);
    var badgeTop := NameTop + Min(|name|, 2) * NameStep + 12;
    var descriptionTop := if product.category == "" then badgeTop else badgeTop + 40;
    var description := CardDescription(product, customDescription);
    var descriptionLines := WrapSpec(description, Measurer(measure, DescriptionFont), TextWidth);
    Card(
      logoLoads,
      if product.image_url != "" && imageLoads then Photo else NoPhoto(CardPlaceholder()),
      FirstTwoLines(name, NameTop, NameStep),
      if product.category == "" then None
      else Some(Badge(TextLeft, badgeTop, measure(BadgeFont, product.category) + 24, 28,
                      TextLine(product.category, TextLeft + 12, badgeTop + 18))),
      if description == "" then [] else FirstTwoLines(descriptionLines, descriptionTop, DescriptionStep),
      if customPrice == "" then None
      else Some(PriceButton(TextLeft, ButtonY, TextWidth, ButtonHeight,
                            TextLine(CurrencyPrefix + customPrice, CardWidth / 2, ButtonY + 40))),
      if description == "" then descriptionTop
      else descriptionTop + Min(|descriptionLines|, 2) * DescriptionStep + 20)
  }

  /** `generateProductCard`: the sections drawn in order while `currentY` moves down the card. */
  method GenerateProductCard(product: Product, customPrice: string, customDescription: string,
                             measure: (Font, string) -> nat, logoLoads: bool, imageLoads: bool) returns (card: Card)
    ensures card == Layout(product, customPrice, customDescription, measure, logoLoads, imageLoads)
  {
    var image := if product.image_url != "" && imageLoads then Photo else NoPhoto(CardPlaceholder());
    var currentY := NameTop;
    var nameLines := WrapText(ToUpper(product.product_name), Measurer(measure, NameFont), TextWidth);
    var drawnName := FirstTwoLines(nameLines, currentY, NameStep);
    currentY := currentY + |drawnName| * NameStep + 12;
    var badge: Option<Badge> := None;
    if product.category != "" {
      var badgeWidth := measure(BadgeFont, product.category) + 24;
      badge := Some(Badge(TextLeft, currentY, badgeWidth, 28, TextLine(product.category, TextLeft + 12, currentY + 18)));
      currentY := currentY + 40;
    }
    var description := CardDescription(product, customDescription);
    var drawnDescription: seq<TextLine> := [];
    if description != "" {
      var descriptionLines := WrapText(description, Measurer(measure, DescriptionFont), TextWidth);
      drawnDescription := FirstTwoLines(descriptionLines, currentY, DescriptionStep);
      currentY := currentY + Min(|descriptionLines|, 2) * DescriptionStep + 20;
    }
    var price: Option<PriceButton> := None;
    if customPrice != "" {
      price := Some(PriceButton(TextLeft, ButtonY, TextWidth, ButtonHeight,
                                TextLine(CurrencyPrefix + customPrice, CardWidth / 2, ButtonY + 40)));
    }
    card := Card(logoLoads, image, drawnName, badge, drawnDescription, price, currentY);
    ghost var expected := Layout(product, customPrice, customDescription, measure, logoLoads, imageLoads);
    assert card.nameLines == expected.nameLines && card.badge == expected.badge;
    assert card.descriptionLines == expected.descriptionLines && card.cursor == expected.cursor;
  }

  /** Every text the card draws. */
  function CardText(card: Card): seq<TextLine>
  {
    card.nameLines
      + (if card.badge.Some? then [card.badge.value.caption] else [])
      + card.descriptionLines
      + (if card.price.Some? then [card.price.value.caption] else [])
  }

  /**
   * The name starts at 410, right under the image section; the cursor never
   * passes 574, and every text baseline lies between the top of the name and the
   * bottom edge of the card.
   */
  lemma LayoutStaysOnCard(product: Product, customPrice: string, customDescription: string,
                          measure: (Font, string) -> nat, logoLoads: bool, imageLoads: bool)
    ensures var card := Layout(product, customPrice, customDescription, measure, logoLoads, imageLoads);
      && NameTop == 410
      && NameTop + NameStep + 12 <= card.cursor <= 574
      && forall l :: l in CardText(card) ==> NameTop <= l.y < CardHeight
  {
    var card := Layout(product, customPrice, customDescription, measure, logoLoads, imageLoads);
    forall l | l in CardText(card)
      ensures NameTop <= l.y < CardHeight
    {
      if l in card.nameLines {
        var k :| 0 <= k < |card.nameLines| && card.nameLines[k] == l;
      } else if l in card.descriptionLines {
        var k :| 0 <= k < |card.descriptionLines| && card.descriptionLines[k] == l;
      }
    }
  }

  /** The price button is placed at y = 520 and shows the prefix and the custom price, whatever sections precede it. */
  lemma PriceButtonIsFixed(product: Product, customPrice: string, customDescription: string,
                           measure: (Font, string) -> nat, logoLoads: bool, imageLoads: bool)
    requires customPrice != ""
    ensures var card := Layout(product, customPrice, customDescription, measure, logoLoads, imageLoads);
      card.price.value.y == ButtonY == 520 && card.price.value.caption.text == CurrencyPrefix + customPrice
      && card.price == Layout(Product("", "", "", "", "", ""), customPrice, "", measure, false, false).price
  {
  }

  /**
   * The name lines shown are the first (at most two) lines of the wrapped,
   * upper-cased name, and the cursor moves 26 per line shown plus 12; the badge
   * adds 40; a description adds 20 per line shown plus 20.
   */
  lemma LayoutCursor(product: Product, customPrice: string, customDescription: string,
                     measure: (Font, string) -> nat, logoLoads: bool, imageLoads: bool)
    ensures var card := Layout(product, customPrice, customDescription, measure, logoLoads, imageLoads);
      var name := WrapSpec(ToUpper(product.product_name), Measurer(measure, NameFont), TextWidth);
      && (forall k :: 0 <= k < |card.nameLines| ==> card.nameLines[k].text == name[k])
      && |card.nameLines| == Min(2, |name|)
      && card.cursor == NameTop + |card.nameLines| * 26 + 12
           + (if card.badge.Some? then 40 else 0)
           + (if card.descriptionLines == [] then 0 else |card.descriptionLines| * 20 + 20)
      && (card.badge.Some? ==>
            card.badge.value.y == NameTop + |card.nameLines| * 26 + 12 && card.badge.value.width == measure(BadgeFont, product.category) + 24)
  {
  }
}
