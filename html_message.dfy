/**
 * helpers/HTMLMessage.ts: the page that the OAuth callback and every failed endpoint call
 * answer with. A fixed template holds `{{title}}` twice (the document title and the card
 * title) and `{{message}}` once (the card text); the title is substituted first, then the
 * message, each by a global replace.
 */
module HtmlTemplate {
  import opened Strings

  const TitleSlot := "{{title}}"
  const MessageSlot := "{{message}}"

  /**
   * The template up to the document title. The literals are kept short, and grouped a few at
   * a time, so that the solver can check each group for `{`.
   */
  const Head := Prologue + (Viewport + TitleOpen)

  const Prologue :=
    "\n<!doctype html>\n" + "<html lang=\"en\">\n" + "  <head>\n" + "    <meta charset=\"utf-8\">\n"

  const Viewport :=
    "    <meta name=\"viewport\" " + "content=\"width=device-width, " + "initial-scale=1, " + "shrink-to-fit=no\">\n"

  const TitleOpen :=
    "    <meta name=\"description\" " + "content=\"\">\n" + "    <title>"

  /**
   * From the end of the document title to the card title. The rules inside the two style
   * elements are not reproduced; the elements are.
   */
  const AfterTitle := TitleClose + (BootstrapLink + (Integrity + (CustomStyles + (HeadClose + (CardOpen + CardBody)))))

  const TitleClose := "</title>\n\n" + "    <!-- Bootstrap core CSS -->\n"

  const BootstrapLink :=
    "    <link rel=\"stylesheet\" " + "href=\"https://stackpath." + "bootstrapcdn.com/bootstrap/" + "4.3.1/css/bootstrap.min.css\"\n"

  const Integrity :=
    "    integrity=\"sha384-" + "ggOyR0iXCbMQv3Xipma34MD+dH/" + "1fQ784/j6cY/iJTQUOhcWr7x9Jvo" + "RxT2MZw1T\" "

  const CustomStyles :=
    "crossorigin=\"anonymous\">\n\n\n" + "    <style></style>\n" + "    <!-- Custom styles " + "for this template -->\n"

  const HeadClose := "    <style type=\"text/css\">" + "</style>\n" + "  </head>\n"

  const CardOpen :=
    "  <body class=\"text-center\">\n" + "    <div class=\"card mx-auto\" " + "style=\"width: 18rem;\">\n"

  const CardBody := "      <div class=\"card-body\">\n" + "        <h5 class=\"card-title\">"

  /** From the end of the card title to the card text. */
  const AfterCardTitle := "</h5>\n" + "        <p class=\"card-text\">"

  /** From the end of the card text to the end of the page. */
  const Tail := "</p>\n" + "      </div>\n" + "    </div>\n" + "  </body>\n" + "</html>\n"

  function Template(): string
  {
    Head + (TitleSlot + (AfterTitle + (TitleSlot + (AfterCardTitle + (MessageSlot + Tail)))))
  }

  /**
   * `HTMLMessage(title, message)`: the title, with any `{{message}}` inside it replaced, stands
   * in both title slots; the message stands verbatim in the card text, so a `{{title}}` inside
   * the message survives; nothing is escaped, and the template text around the slots is
   * unchanged.
   */
  function HtmlMessage(title: string, message: string): (r: string)
    ensures var t := ReplaceAll(title, MessageSlot, message);
      r == Head + (t + (AfterTitle + (t + (AfterCardTitle + (message + Tail)))))
  {
    BothPasses(title, message);
    ReplaceAll(ReplaceAll(Template(), TitleSlot, title), MessageSlot, message)
  }

  /** The two passes over the template, one after the other. */
  lemma BothPasses(title: string, message: string)
    ensures var t := ReplaceAll(title, MessageSlot, message);
      ReplaceAll(ReplaceAll(Template(), TitleSlot, title), MessageSlot, message)
      == Head + (t + (AfterTitle + (t + (AfterCardTitle + (message + Tail)))))
  {
    LiteralsOfTemplate();
    TitlePassOver(Head, AfterTitle, AfterCardTitle, Tail, title);
    MessagePassOver(Head, AfterTitle, AfterCardTitle, Tail, title, message);
  }

  /** The literal parts of the template contain no `{`, so no placeholder hides in them. */
  predicate Literal(s: string)
  {
    '{' !in s
  }

  lemma LiteralsOfTemplate()
    ensures Literal(Head) && Literal(AfterTitle) && Literal(AfterCardTitle) && Literal(Tail)
    ensures AfterTitle[0] == '<' && AfterCardTitle[0] == '<' && Tail[0] == '<'
  {
    NoBraceInPrologue();
    NoBraceInViewport();
    NoBraceInTitleOpen();
    NoBraceInTitleClose();
    NoBraceInBootstrapLink();
    NoBraceInIntegrity();
    NoBraceInCustomStyles();
    NoBraceInHeadClose();
    NoBraceInCardOpen();
    NoBraceInCardBody();
  }

  // One `{`-check per group of literals: checked together they exceed the solver budget.
  lemma NoBraceInPrologue() ensures '{' !in Prologue { }
  lemma NoBraceInViewport() ensures '{' !in Viewport { }
  lemma NoBraceInTitleOpen() ensures '{' !in TitleOpen { }
  lemma NoBraceInTitleClose() ensures '{' !in TitleClose { }
  lemma NoBraceInBootstrapLink() ensures '{' !in BootstrapLink { }
  lemma NoBraceInIntegrity() ensures '{' !in Integrity { }
  lemma NoBraceInCustomStyles() ensures '{' !in CustomStyles { }
  lemma NoBraceInHeadClose() ensures '{' !in HeadClose { }
  lemma NoBraceInCardOpen() ensures '{' !in CardOpen { }
  lemma NoBraceInCardBody() ensures '{' !in CardBody { }

  /** The first pass, over any literal segments: both `{{title}}` slots receive the title. */
  lemma {:induction false} TitlePassOver(h: string, a: string, c: string, tl: string, title: string)
    requires Literal(h) && Literal(a) && Literal(c) && Literal(tl)
    ensures ReplaceAll(h + (TitleSlot + (a + (TitleSlot + (c + (MessageSlot + tl))))), TitleSlot, title)
         == h + (title + (a + (title + (c + (MessageSlot + tl)))))
  {
    var rest := MessageSlot + tl;
    // `{{message}}` is not `{{title}}`, nor is what follows its first `{`; after `{{` no `{` is left
    assert rest[..|TitleSlot|] != TitleSlot by { assert rest[2] == 'm' && TitleSlot[2] == 't'; }
    assert rest[1..][..|TitleSlot|] != TitleSlot by { assert rest[1..][1] == 'm' && TitleSlot[1] == '{'; }
    assert rest[1..][1..] == "message}}" + tl;
    ReplaceAllIdentity(tl, TitleSlot, title);
    ReplaceAllSkipsLiteral("message}}", tl, TitleSlot, title);
    assert ReplaceAll(rest[1..], TitleSlot, title) == rest[1..];
    assert ReplaceAll(rest, TitleSlot, title) == rest;
    ReplaceAllSkipsLiteral(c, rest, TitleSlot, title);
    ReplaceAllAtPattern(TitleSlot, c + rest, title);
    ReplaceAllSkipsLiteral(a, TitleSlot + (c + rest), TitleSlot, title);
    ReplaceAllAtPattern(TitleSlot, a + (TitleSlot + (c + rest)), title);
    ReplaceAllSkipsLiteral(h, TitleSlot + (a + (TitleSlot + (c + rest))), TitleSlot, title);
  }

  /**
   * The second pass, over any literal segments that start a tag: the message fills its slot,
   * and a `{{message}}` that the title brought in is replaced too.
   */
  lemma {:induction false} MessagePassOver(h: string, a: string, c: string, tl: string, title: string, message: string)
    requires Literal(h) && Literal(a) && Literal(c) && Literal(tl)
    requires a != [] && a[0] == '<' && c != [] && c[0] == '<'
    ensures var t := ReplaceAll(title, MessageSlot, message);
      ReplaceAll(h + (title + (a + (title + (c + (MessageSlot + tl))))), MessageSlot, message)
      == h + (t + (a + (t + (c + (message + tl)))))
  {
    ReplaceAllIdentity(tl, MessageSlot, message);
    ReplaceAllAtPattern(MessageSlot, tl, message);
    ReplaceAllSkipsLiteral(c, MessageSlot + tl, MessageSlot, message);
    var r1 := c + (MessageSlot + tl);
    ReplaceAllSplit(title, r1, MessageSlot, message);
    ReplaceAllSkipsLiteral(a, title + r1, MessageSlot, message);
    var r2 := a + (title + r1);
    ReplaceAllSplit(title, r2, MessageSlot, message);
    ReplaceAllSkipsLiteral(h, title + r2, MessageSlot, message);
  }

  /** A title without `{` appears in the page exactly as given. */
  lemma PlainTitleVerbatim(title: string, message: string)
    requires '{' !in title
    ensures HtmlMessage(title, message)
         == Head + (title + (AfterTitle + (title + (AfterCardTitle + (message + Tail)))))
  {
    ReplaceAllIdentity(title, MessageSlot, message);
  }
}
