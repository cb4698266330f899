/**
 * The cart page's checkout: the order summary text written for the customer
 * to e-mail to the seller, and the dialog that shows it. The dialog state is
 * the current order id (`string | null`) and whether the popup is open.
 * The clock reading behind the order id and the seller's e-mail address are
 * parameters.
 */
module CartDisplay {
  import opened Wrappers
  import opened Text
  import opened CartItems
  import opened CartContext

  /** The order id `MV-${timestamp}`. */
  function OrderId(timestamp: nat): (id: string)
    ensures |id| > 3 && id[..3] == "MV-" && AllDigits(id[3..])
  {
    "MV-" + NatToString(timestamp)
  }

  /** JavaScript truthiness of a `string | null`: present and not empty. */
  predicate Truthy(orderId: Option<string>) {
    orderId.Some? && orderId.value != ""
  }

  /** A generated order id is truthy, so the summary of a checkout always has its instructions. */
  lemma OrderIdTruthy(timestamp: nat)
    ensures Truthy(Some(OrderId(timestamp))) && !Truthy(None)
  {
  }

  /** `${orderId}` for a `string | null`. */
  function OrderIdText(orderId: Option<string>): string {
    match orderId
    case None => "null"
    case Some(s) => s
  }

  /** The text made of `lines`, each one ended by a newline. */
  function Render(lines: seq<string>): (text: string)
    ensures |text| >= |lines|
  {
    if lines == [] then "" else Render(lines[..|lines| - 1]) + lines[|lines| - 1] + "\n"
  }

  // ---------------------------------------------------------------------------
  // The lines of the order summary

  /**
   * The fixed wording of the order summary. Every proof below holds for any
   * wording; `SourceWording` holds the storefront's own texts.
   */
  datatype Wording = Wording(
    subject: string, greeting: string, request: string,
    subtotal: string, packaging: string, shipping: string, rule: string, total: string,
    contactHeading: string, contactPrompt: string, instructionsHeading: string,
    emailStep: string, subjectStep: string, subjectStepEnd: string, bodyStep: string,
    paymentStep: string, paymentStepEnd: string, idStep: string, idStepEnd: string,
    startNote: string, thanks: string)

  const SourceWording := Wording(
    "Asunto: Nuevo Pedido - ID: ",
    "Estimado equipo de Marivelas,",
    "Quisiera realizar el siguiente pedido:",
    "Subtotal: €",
    "Coste de Packaging (",
    "Coste de Envío: €",
    "-------------------------------------",
    "TOTAL DEL PEDIDO: €",
    "Mis datos de contacto son:",
    "[Por favor, completa aquí tu Nombre, Email y Teléfono si es necesario]",
    "--- Instrucciones para el Cliente ---",
    "Para finalizar tu pedido, por favor, envía un correo electrónico a: ",
    "1. Asunto del correo: Nuevo Pedido - ID: ",
    " (¡Copia y pega esto!)",
    "2. Cuerpo del correo: Copia y pega TODO este resumen del pedido, incluyendo tus datos de contacto si lo deseas.",
    "3. Pago: Realiza el pago del TOTAL DEL PEDIDO (€",
    ") por Bizum al número que te facilitaremos por correo tras recibir tu email.",
    "4. Importante: Indica el ID del Pedido (",
    ") en el concepto del Bizum.",
    "Tu pedido comenzará a elaborarse una vez recibido el pago y el correo.",
    "¡Gracias por tu compra!")

  /** The text before the amount on the packaging line, naming the option. */
  function PackagingPrefix(w: Wording, p: Packaging): string {
    w.packaging + PackagingLabel(p) + "): €"
  }

  /** One line per cart line: name, colour, quantity and line amount. */
  function ItemLine(item: CartItem): string {
    "- " + item.candle.name + " (Color: " + item.color.name + ") x " + IntToString(item.quantity)
      + " - €" + FormatCents(item.candle.price * item.quantity)
  }

  /** `f` applied to each element of `s`, in order. */
  function Map<A, B>(f: A -> B, s: seq<A>): (r: seq<B>)
    ensures |r| == |s|
  {
    if s == [] then [] else Map(f, s[..|s| - 1]) + [f(s[|s| - 1])]
  }

  lemma {:induction false} MapAt<A, B>(f: A -> B, s: seq<A>, k: int)
    requires 0 <= k < |s|
    ensures Map(f, s)[k] == f(s[k])
  {
    var n := |s|;
    if k < n - 1 {
      MapAt(f, s[..n - 1], k);
    }
  }

  lemma MapSnoc<A, B>(f: A -> B, s: seq<A>, i: int)
    requires 0 <= i < |s|
    ensures Map(f, s[..i + 1]) == Map(f, s[..i]) + [f(s[i])]
  {
    assert s[..i + 1][..i] == s[..i];
  }

  /** The item lines in cart order, as the `forEach` appends them. */
  function ItemLines(items: seq<CartItem>): (lines: seq<string>)
    ensures |lines| == |items|
  {
    Map(ItemLine, items)
  }

  function HeaderLines(w: Wording, orderId: Option<string>): (lines: seq<string>)
    ensures |lines| == 6
  {
    [w.subject + OrderIdText(orderId), "", w.greeting, "", w.request, ""]
  }

  function CostLines(w: Wording, items: seq<CartItem>, packaging: Packaging, costs: CostConstants): (lines: seq<string>)
    ensures |lines| == 8
  {
    ["",
     w.subtotal + FormatCents(Subtotal(items)),
     PackagingPrefix(w, packaging) + FormatCents(PackagingCost(items, packaging, costs)),
     w.shipping + FormatCents(ShippingCost(items, costs)),
     w.rule,
     w.total + FormatCents(TotalPrice(items, packaging, costs)),
     w.rule, ""]
  }

  function InstructionLines(w: Wording, sellerEmail: string, total: int, orderId: string): (lines: seq<string>)
    ensures |lines| == 11
  {
    [w.contactHeading, w.contactPrompt, "", w.instructionsHeading,
     w.emailStep + sellerEmail,
     w.subjectStep + orderId + w.subjectStepEnd,
     w.bodyStep,
     w.paymentStep + FormatCents(total) + w.paymentStepEnd,
     w.idStep + orderId + w.idStepEnd,
     w.startNote, w.thanks]
  }

  /** The lines of `generateOrderSummary(orderId, includeInstructions)` for the given cart. */
  function SummaryLines(w: Wording, items: seq<CartItem>, packaging: Packaging, costs: CostConstants,
                        sellerEmail: string, orderId: Option<string>, includeInstructions: bool): seq<string>
  {
    if |items| == 0 && !Truthy(orderId) then []
    else
      HeaderLines(w, orderId) + ItemLines(items) + CostLines(w, items, packaging, costs)
      + if includeInstructions && Truthy(orderId)
        then InstructionLines(w, sellerEmail, TotalPrice(items, packaging, costs), orderId.value)
        else []
  }

  function OrderSummary(w: Wording, items: seq<CartItem>, packaging: Packaging, costs: CostConstants,
                        sellerEmail: string, orderId: Option<string>, includeInstructions: bool): (text: string)
    ensures text == "" <==> |items| == 0 && !Truthy(orderId)
  {
    Render(SummaryLines(w, items, packaging, costs, sellerEmail, orderId, includeInstructions))
  }

  // ---------------------------------------------------------------------------
  // Lemmas about the text

  lemma RenderSnoc(lines: seq<string>, line: string)
    ensures Render(lines + [line]) == Render(lines) + line + "\n"
  {
    assert (lines + [line])[..|lines|] == lines;
  }

  /** Two order ids are equal only if they come from the same clock reading. */
  lemma OrderIdInjective(t1: nat, t2: nat)
    requires OrderId(t1) == OrderId(t2)
    ensures t1 == t2
  {
    assert OrderId(t1)[3..] == NatToString(t1);
    assert OrderId(t2)[3..] == NatToString(t2);
    NatToStringInjective(t1, t2);
  }

  /** Otherwise the first line of the text is the subject line with the order id. */
  lemma SummaryStartsWithSubject(w: Wording, items: seq<CartItem>, packaging: Packaging, costs: CostConstants,
                                 sellerEmail: string, orderId: Option<string>, includeInstructions: bool)
    requires |items| > 0 || Truthy(orderId)
    ensures var subject := w.subject + OrderIdText(orderId) + "\n";
      var text := OrderSummary(w, items, packaging, costs, sellerEmail, orderId, includeInstructions);
      |subject| <= |text| && text[..|subject|] == subject
  {
    var lines := SummaryLines(w, items, packaging, costs, sellerEmail, orderId, includeInstructions);
    assert lines[0] == w.subject + OrderIdText(orderId);
    RenderFirst(lines);
  }

  lemma {:induction false} RenderFirst(lines: seq<string>)
    requires |lines| > 0
    ensures Render(lines) == lines[0] + "\n" + Render(lines[1..])
  {
    var n := |lines|;
    if n == 1 {
      assert lines[..0] == [] && lines[1..] == [];
    } else {
      var init := lines[..n - 1];
      RenderFirst(init);
      assert init[0] == lines[0];
      assert init[1..] == lines[1..][..n - 2];
      assert lines[1..][n - 2] == lines[n - 1];
    }
  }

  /** The item lines follow the six heading lines, one per cart line, in cart order. */
  lemma SummaryListsItems(w: Wording, items: seq<CartItem>, packaging: Packaging, costs: CostConstants,
                          sellerEmail: string, orderId: Option<string>, includeInstructions: bool, k: int)
    requires |items| > 0 || Truthy(orderId)
    requires 0 <= k < |items|
    ensures var lines := SummaryLines(w, items, packaging, costs, sellerEmail, orderId, includeInstructions);
      |lines| > 6 + k && lines[6 + k] == ItemLine(items[k])
  {
    var lines := SummaryLines(w, items, packaging, costs, sellerEmail, orderId, includeInstructions);
    var header, listed := HeaderLines(w, orderId), ItemLines(items);
    var tail := if includeInstructions && Truthy(orderId)
      then InstructionLines(w, sellerEmail, TotalPrice(items, packaging, costs), orderId.value)
      else [];
    assert lines == header + listed + CostLines(w, items, packaging, costs) + tail;
    BlockAt(header, listed, CostLines(w, items, packaging, costs), tail, k);
    MapAt(ItemLine, items, k);
  }

  /** The third of four joined blocks sits after the first two. */
  lemma ThirdBlock<T>(a: seq<T>, b: seq<T>, c: seq<T>, d: seq<T>)
    ensures (a + b + c + d)[|a| + |b|..|a| + |b| + |c|] == c
  {
  }

  /** An element of the second of four joined blocks sits after the first block. */
  lemma BlockAt<T>(a: seq<T>, b: seq<T>, c: seq<T>, d: seq<T>, k: int)
    requires 0 <= k < |b|
    ensures (a + b + c + d)[|a| + k] == b[k]
  {
  }

  /** An item line states the candle's name, the colour's name, the quantity and price times quantity, all readable back. */
  lemma ItemLineReadsBack(item: CartItem)
    ensures var quantity := IntToString(item.quantity);
      var amount := FormatCents(item.candle.price * item.quantity);
      ItemLine(item) == "- " + item.candle.name + " (Color: " + item.color.name + ") x " + quantity + " - €" + amount
      && ParseInt(quantity) == Some(item.quantity)
      && ParseCents(amount) == Some(item.candle.price * item.quantity)
  {
    IntToStringRoundTrip(item.quantity);
    FormatCentsRoundTrip(item.candle.price * item.quantity);
  }

  /** After the item lines come the cost lines, in one block. */
  lemma SummaryReportsCosts(w: Wording, items: seq<CartItem>, packaging: Packaging, costs: CostConstants,
                            sellerEmail: string, orderId: Option<string>, includeInstructions: bool)
    requires |items| > 0 || Truthy(orderId)
    ensures var lines := SummaryLines(w, items, packaging, costs, sellerEmail, orderId, includeInstructions);
      var n := |items|;
      |lines| >= 14 + n && lines[6 + n..14 + n] == CostLines(w, items, packaging, costs)
  {
    var lines := SummaryLines(w, items, packaging, costs, sellerEmail, orderId, includeInstructions);
    var header, listed, c := HeaderLines(w, orderId), ItemLines(items), CostLines(w, items, packaging, costs);
    var tail := if includeInstructions && Truthy(orderId)
      then InstructionLines(w, sellerEmail, TotalPrice(items, packaging, costs), orderId.value)
      else [];
    assert lines == header + listed + c + tail;
    ThirdBlock(header, listed, c, tail);
  }

  /** The cost lines report exactly the cart's derived values, each readable back after its prefix. */
  lemma CostLinesReadBack(w: Wording, items: seq<CartItem>, packaging: Packaging, costs: CostConstants)
    ensures var c := CostLines(w, items, packaging, costs);
      c[1] == w.subtotal + FormatCents(Subtotal(items))
      && AmountAfter(w.subtotal, c[1]) == Some(Subtotal(items))
      && c[2] == PackagingPrefix(w, packaging) + FormatCents(PackagingCost(items, packaging, costs))
      && AmountAfter(PackagingPrefix(w, packaging), c[2]) == Some(PackagingCost(items, packaging, costs))
      && c[3] == w.shipping + FormatCents(ShippingCost(items, costs))
      && AmountAfter(w.shipping, c[3]) == Some(ShippingCost(items, costs))
      && c[5] == w.total + FormatCents(TotalPrice(items, packaging, costs))
      && AmountAfter(w.total, c[5]) == Some(TotalPrice(items, packaging, costs))
  {
    var c := CostLines(w, items, packaging, costs);
    assert AmountAfter(w.subtotal, c[1]) == Some(Subtotal(items)) by {
      AmountReadsBack(w.subtotal, Subtotal(items));
    }
    assert AmountAfter(PackagingPrefix(w, packaging), c[2]) == Some(PackagingCost(items, packaging, costs)) by {
      AmountReadsBack(PackagingPrefix(w, packaging), PackagingCost(items, packaging, costs));
    }
    assert AmountAfter(w.shipping, c[3]) == Some(ShippingCost(items, costs)) by {
      AmountReadsBack(w.shipping, ShippingCost(items, costs));
    }
    assert AmountAfter(w.total, c[5]) == Some(TotalPrice(items, packaging, costs)) by {
      AmountReadsBack(w.total, TotalPrice(items, packaging, costs));
    }
  }

  /** The amount a line states after its prefix, if the line does start with that prefix. */
  function AmountAfter(prefix: string, line: string): Option<int>
  {
    if |prefix| <= |line| && line[..|prefix|] == prefix then ParseCents(line[|prefix|..]) else None
  }

  /** An amount written after a fixed prefix reads back from the text after the prefix. */
  lemma AmountReadsBack(prefix: string, amount: int)
    ensures AmountAfter(prefix, prefix + FormatCents(amount)) == Some(amount)
  {
    var line := prefix + FormatCents(amount);
    assert line[..|prefix|] == prefix && line[|prefix|..] == FormatCents(amount);
    FormatCentsRoundTrip(amount);
  }

  /**
   * The customer instructions close the summary exactly when they were asked
   * for and there is an order id; they quote the seller's address, the order
   * id and the total to pay.
   */
  lemma SummaryInstructionsIff(w: Wording, items: seq<CartItem>, packaging: Packaging, costs: CostConstants,
                               sellerEmail: string, orderId: Option<string>, includeInstructions: bool)
    requires |items| > 0 || Truthy(orderId)
    ensures var lines := SummaryLines(w, items, packaging, costs, sellerEmail, orderId, includeInstructions);
      var n := |items|;
      var total := TotalPrice(items, packaging, costs);
      |lines| == 14 + n + (if includeInstructions && Truthy(orderId) then 11 else 0)
      && (includeInstructions && Truthy(orderId) ==>
            lines[14 + n..] == InstructionLines(w, sellerEmail, total, orderId.value)
            && ParseCents(lines[21 + n][|w.paymentStep|..|lines[21 + n]| - |w.paymentStepEnd|]) == Some(total))
  {
    var lines := SummaryLines(w, items, packaging, costs, sellerEmail, orderId, includeInstructions);
    var n := |items|;
    var total := TotalPrice(items, packaging, costs);
    if includeInstructions && Truthy(orderId) {
      var head := HeaderLines(w, orderId) + ItemLines(items) + CostLines(w, items, packaging, costs);
      assert |head| == 14 + n;
      assert lines[14 + n..] == InstructionLines(w, sellerEmail, total, orderId.value);
      var payment := w.paymentStep + FormatCents(total) + w.paymentStepEnd;
      assert lines[21 + n] == payment;
      assert payment[|w.paymentStep|..|payment| - |w.paymentStepEnd|] == FormatCents(total);
      FormatCentsRoundTrip(total);
    }
  }

  // ---------------------------------------------------------------------------
  // Appending to the text, one template at a time

  /** A line followed by an empty line: the `...\n\n` templates. */
  lemma RenderOneBlank(x: string)
    ensures Render([x, ""]) == x + "\n\n"
  {
    RenderSnoc([], x);
    RenderSnoc([x], "");
    assert [] + [x] == [x] && [x] + [""] == [x, ""];
    assert "" + x == x;
  }

  lemma RenderSnocBlank(lines: seq<string>, x: string)
    ensures Render(lines + [x, ""]) == Render(lines) + x + "\n\n"
  {
    RenderSnoc(lines, x);
    RenderSnoc(lines + [x], "");
    assert lines + [x] + [""] == lines + [x, ""];
  }

  lemma RenderBlankSnoc(lines: seq<string>, x: string)
    ensures Render(lines + ["", x]) == Render(lines) + "\n" + x + "\n"
  {
    RenderSnoc(lines, "");
    RenderSnoc(lines + [""], x);
    assert lines + [""] + [x] == lines + ["", x];
  }

  /** One more item line after the heading lines and the items before it. */
  lemma ListedSnoc(header: seq<string>, items: seq<CartItem>, i: int)
    requires 0 <= i < |items|
    ensures header + ItemLines(items[..i]) + [ItemLine(items[i])] == header + ItemLines(items[..i + 1])
  {
    MapSnoc(ItemLine, items, i);
    AppendAssoc(header, ItemLines(items[..i]), [ItemLine(items[i])]);
  }

  /** Regrouping the appended pieces of the line list. */
  lemma AppendAssoc<T>(a: seq<T>, b: seq<T>, c: seq<T>)
    ensures a + b + c == a + (b + c)
  {
  }

  lemma CostAppends<T>(x: seq<T>, a: T, b: T, c: T, d: T, e: T, f: T)
    ensures x + [a, b] + [c] + [d] + [e] + [f] + [e, a] == x + [a, b, c, d, e, f, e, a]
  {
  }

  lemma InstructionAppends<T>(x: seq<T>, a: T, b: T, blank: T, c: T, d: T, e: T, f: T, g: T, h: T, i: T, j: T)
    ensures x + [a] + [b, blank] + [c] + [d] + [e] + [f] + [g] + [h] + [i] + [j]
         == x + [a, b, blank, c, d, e, f, g, h, i, j]
  {
  }

  /** The `cart.forEach` over the lines: one item line per cart line, in cart order. */
  method AppendItems(ghost lines: seq<string>, text: string, items: seq<CartItem>) returns (summary: string)
    requires text == Render(lines)
    ensures summary == Render(lines + ItemLines(items))
  {
    summary := text;
    assert items[..0] == [];
    assert lines + ItemLines(items[..0]) == lines;
    var i := 0;
    while i < |items|
      invariant 0 <= i <= |items|
      invariant summary == Render(lines + ItemLines(items[..i]))
    {
      var line := ItemLine(items[i]);
      summary := summary + line + "\n";
      RenderSnoc(lines + ItemLines(items[..i]), line);
      ListedSnoc(lines, items, i);
      i := i + 1;
    }
    assert items[..i] == items;
  }

  /** The cost lines appended after the item lines. */
  method AppendCosts(ghost lines: seq<string>, text: string, w: Wording, items: seq<CartItem>,
                     packaging: Packaging, costs: CostConstants) returns (summary: string)
    requires text == Render(lines)
    ensures summary == Render(lines + CostLines(w, items, packaging, costs))
  {
    ghost var acc := lines;
    var subtotalLine := w.subtotal + FormatCents(Subtotal(items));
    var packagingLine := PackagingPrefix(w, packaging) + FormatCents(PackagingCost(items, packaging, costs));
    var shippingLine := w.shipping + FormatCents(ShippingCost(items, costs));
    var totalLine := w.total + FormatCents(TotalPrice(items, packaging, costs));
    summary := text + "\n" + subtotalLine + "\n";
    RenderBlankSnoc(acc, subtotalLine);
    acc := acc + ["", subtotalLine];
    summary := summary + packagingLine + "\n";
    RenderSnoc(acc, packagingLine);
    acc := acc + [packagingLine];
    summary := summary + shippingLine + "\n";
    RenderSnoc(acc, shippingLine);
    acc := acc + [shippingLine];
    summary := summary + w.rule + "\n";
    RenderSnoc(acc, w.rule);
    acc := acc + [w.rule];
    summary := summary + totalLine + "\n";
    RenderSnoc(acc, totalLine);
    acc := acc + [totalLine];
    summary := summary + w.rule + "\n\n";
    RenderSnocBlank(acc, w.rule);
    acc := acc + [w.rule, ""];
    CostAppends(lines, "", subtotalLine, packagingLine, shippingLine, w.rule, totalLine);
  }

  /** The customer instructions appended after the cost lines. */
  method AppendInstructions(ghost lines: seq<string>, text: string, w: Wording, sellerEmail: string,
                            total: int, id: string) returns (summary: string)
    requires text == Render(lines)
    ensures summary == Render(lines + InstructionLines(w, sellerEmail, total, id))
  {
    ghost var acc := lines;
    var emailLine := w.emailStep + sellerEmail;
    var subjectLine := w.subjectStep + id + w.subjectStepEnd;
    var paymentLine := w.paymentStep + FormatCents(total) + w.paymentStepEnd;
    var idLine := w.idStep + id + w.idStepEnd;
    summary := text + w.contactHeading + "\n";
    RenderSnoc(acc, w.contactHeading);
    acc := acc + [w.contactHeading];
    summary := summary + w.contactPrompt + "\n\n";
    RenderSnocBlank(acc, w.contactPrompt);
    acc := acc + [w.contactPrompt, ""];
    summary := summary + w.instructionsHeading + "\n";
    RenderSnoc(acc, w.instructionsHeading);
    acc := acc + [w.instructionsHeading];
    summary := summary + emailLine + "\n";
    RenderSnoc(acc, emailLine);
    acc := acc + [emailLine];
    summary := summary + subjectLine + "\n";
    RenderSnoc(acc, subjectLine);
    acc := acc + [subjectLine];
    summary := summary + w.bodyStep + "\n";
    RenderSnoc(acc, w.bodyStep);
    acc := acc + [w.bodyStep];
    summary := summary + paymentLine + "\n";
    RenderSnoc(acc, paymentLine);
    acc := acc + [paymentLine];
    summary := summary + idLine + "\n";
    RenderSnoc(acc, idLine);
    acc := acc + [idLine];
    summary := summary + w.startNote + "\n";
    RenderSnoc(acc, w.startNote);
    acc := acc + [w.startNote];
    summary := summary + w.thanks + "\n";
    RenderSnoc(acc, w.thanks);
    acc := acc + [w.thanks];
    InstructionAppends(lines, w.contactHeading, w.contactPrompt, "", w.instructionsHeading, emailLine,
      subjectLine, w.bodyStep, paymentLine, idLine, w.startNote, w.thanks);
  }

  // ---------------------------------------------------------------------------
  // The checkout dialog

  class Checkout {
    const cart: CartStore
    const sellerEmail: string
    const wording: Wording

    var currentOrderId: Option<string>
    var isPopupOpen: bool
    /** The order ids quoted by the notifications shown so far. */
    var notices: seq<string>

    constructor (cart: CartStore, sellerEmail: string)
      ensures this.cart == cart && this.sellerEmail == sellerEmail && wording == SourceWording
      ensures currentOrderId == None && !isPopupOpen && notices == []
    {
      this.cart := cart;
      this.sellerEmail := sellerEmail;
      wording := SourceWording;
      currentOrderId := None;
      isPopupOpen := false;
      notices := [];
    }

    /** The summary of the current cart for an order id. */
    function Summary(orderId: Option<string>, includeInstructions: bool): string
      reads this, cart
    {
      OrderSummary(wording, cart.items, cart.packaging, cart.costs, sellerEmail, orderId, includeInstructions)
    }

    /** `orderSummaryForPopup`: the summary with instructions while there is an order id, else "". */
    function OrderSummaryForPopup(): (text: string)
      reads this, cart
      ensures text == "" <==> !Truthy(currentOrderId)
    {
      if Truthy(currentOrderId) then Summary(currentOrderId, true) else ""
    }

    /** `generateOrderSummary`, appending to the text line by line over the cart. */
    method GenerateOrderSummary(orderId: Option<string>, includeInstructions: bool) returns (summary: string)
      ensures summary == Summary(orderId, includeInstructions)
    {
      var w, items, packaging, costs := wording, cart.items, cart.packaging, cart.costs;
      if |items| == 0 && !Truthy(orderId) {
        return "";
      }
      var subject := w.subject + OrderIdText(orderId);
      summary := subject + "\n\n";
      RenderOneBlank(subject);
      summary := summary + w.greeting + "\n\n";
      RenderSnocBlank([subject, ""], w.greeting);
      summary := summary + w.request + "\n\n";
      RenderSnocBlank([subject, ""] + [w.greeting, ""], w.request);
      ghost var header := HeaderLines(w, orderId);
      assert [subject, ""] + [w.greeting, ""] + [w.request, ""] == header;
      summary := AppendItems(header, summary, items);
      ghost var lines := header + ItemLines(items);
      summary := AppendCosts(lines, summary, w, items, packaging, costs);
      lines := lines + CostLines(w, items, packaging, costs);
      if includeInstructions && Truthy(orderId) {
        summary := AppendInstructions(lines, summary, w, sellerEmail, TotalPrice(items, packaging, costs), orderId.value);
      } else {
        assert lines == lines + [];
      }
    }

    /** "Realizar Pedido": a new order id from the clock reading, and the popup opens. */
    method ProceedToCheckout(timestamp: nat)
      modifies this
      ensures currentOrderId == Some(OrderId(timestamp)) && isPopupOpen
      ensures notices == old(notices)
      ensures OrderSummaryForPopup() == Summary(Some(OrderId(timestamp)), true)
    {
      currentOrderId := Some(OrderId(timestamp));
      isPopupOpen := true;
    }

    /** The button is disabled while the cart is empty: a click then does nothing. */
    method ClickPlaceOrder(timestamp: nat)
      modifies this
      ensures |cart.items| > 0 ==> currentOrderId == Some(OrderId(timestamp)) && isPopupOpen
      ensures |cart.items| == 0 ==> currentOrderId == old(currentOrderId) && isPopupOpen == old(isPopupOpen)
      ensures notices == old(notices)
    {
      if |cart.items| > 0 {
        ProceedToCheckout(timestamp);
      }
    }

    /** "Cancelar": the order id is dropped and the dialog closes; the cart is untouched. */
    method Cancel()
      modifies this
      ensures currentOrderId == None && !isPopupOpen
      ensures notices == old(notices)
      ensures OrderSummaryForPopup() == ""
    {
      currentOrderId := None;
      isPopupOpen := false;
    }

    /** The dialog closed another way (the Escape key): the order id stays. */
    method Dismiss()
      modifies this
      ensures currentOrderId == old(currentOrderId) && !isPopupOpen
      ensures notices == old(notices)
    {
      isPopupOpen := false;
    }

    /**
     * "Entendido, Continuar": clears the cart, shows a notice quoting the
     * order id, drops the id and closes the popup.
     */
    method ConfirmInstructions()
      modifies this, cart
      ensures cart.items == [] && cart.packaging == Standard
      ensures cart.isCartLoaded == old(cart.isCartLoaded)
      ensures cart.SavedAfter(old(cart.cartSlot), old(cart.packagingSlot)) && cart.Valid()
      ensures notices == old(notices) + [OrderIdText(old(currentOrderId))]
      ensures currentOrderId == None && !isPopupOpen
      ensures OrderSummaryForPopup() == ""
    {
      cart.ClearCart();
      notices := notices + [OrderIdText(currentOrderId)];
      currentOrderId := None;
      isPopupOpen := false;
    }

    /** "Vaciar Carrito": clears the cart; the button is disabled while the cart is empty. */
    method ClickEmptyCart()
      modifies cart
      ensures cart.items == [] && cart.isCartLoaded == old(cart.isCartLoaded)
      ensures old(|cart.items|) > 0 ==>
        cart.packaging == Standard && cart.SavedAfter(old(cart.cartSlot), old(cart.packagingSlot))
      ensures old(|cart.items|) == 0 ==>
        cart.packaging == old(cart.packaging) && cart.cartSlot == old(cart.cartSlot) && cart.packagingSlot == old(cart.packagingSlot)
    {
      if |cart.items| > 0 {
        cart.ClearCart();
      }
    }
  }

  /**
   * Two checkouts in a row, the first one cancelled: the order ids differ
   * when the clock has moved on, and only the confirmed one clears the cart.
   */
  method CancelThenConfirm(cart: CartStore, sellerEmail: string, t1: nat, t2: nat)
      returns (first: string, second: string, afterCancel: seq<CartItem>)
    requires |cart.items| > 0 && t1 != t2
    modifies cart
    ensures first != second
    ensures afterCancel == old(cart.items)
    ensures cart.items == [] && cart.packaging == Standard
  {
    var checkout := new Checkout(cart, sellerEmail);
    checkout.ClickPlaceOrder(t1);
    first := checkout.currentOrderId.value;
    checkout.Cancel();
    afterCancel := cart.items;
    checkout.ClickPlaceOrder(t2);
    second := checkout.currentOrderId.value;
    assert first != second by {
      if first == second {
        OrderIdInjective(t1, t2);
      }
    }
    checkout.ConfirmInstructions();
  }
}
