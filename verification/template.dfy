/**
 * The reminder text: the clinic's template (or the built-in default) with
 * the three placeholders replaced one after the other, each by a single
 * call to `replace`.
 */
module Template {
  import opened Wrappers
  import opened Strings

  const NamePlaceholder := "{{nome}}"
  const DatePlaceholder := "{{data}}"
  const TimePlaceholder := "{{hora}}"

  /** `"Olá {{nome}}, seu atendimento está agendado para {{data}} às {{hora}}."` */
  const DefaultTemplate := "Olá " + NamePlaceholder + ", seu atendimento está agendado para "
                           + DatePlaceholder + " às " + TimePlaceholder + "."

  /** `reminder_message || DefaultTemplate`: a null or empty stored template falls back to the default. */
  function ChooseTemplate(stored: Option<string>): (t: string)
    ensures t != ""
    ensures stored.None? || stored.value == "" ==> t == DefaultTemplate
    ensures stored.Some? && stored.value != "" ==> t == stored.value
  {
    if stored.Some? && stored.value != "" then stored.value else DefaultTemplate
  }

  /**
   * The rendered reminder: `{{nome}}`, then `{{data}}`, then `{{hora}}`, each
   * first occurrence only, each step working on the previous step's output.
   */
  function Render(template: string, name: string, date: string, time: string): string
  {
    var withName := ReplaceFirst(template, NamePlaceholder, name);
    var withDate := ReplaceFirst(withName, DatePlaceholder, date);
    ReplaceFirst(withDate, TimePlaceholder, time)
  }

  /** A template that holds none of the placeholders is sent exactly as written. */
  lemma RenderNoPlaceholders(template: string, name: string, date: string, time: string)
    requires forall j: nat :: !OccursAt(template, NamePlaceholder, j)
    requires forall j: nat :: !OccursAt(template, DatePlaceholder, j)
    requires forall j: nat :: !OccursAt(template, TimePlaceholder, j)
    ensures Render(template, name, date, time) == template
  {
  }

  /** One step: past a `{`-free prefix, the placeholder gives way to the `$`-free value. */
  lemma ReplaceAfter(p: string, token: string, rest: string, value: string)
    requires |token| > 0 && token[0] == '{' && '{' !in p && '$' !in value
    ensures ReplaceFirst(p + (token + rest), token, value) == p + (value + rest)
  {
    ReplacePastPrefix(p, token + rest, token, value);
    ReplaceAtStart(token, rest, value);
  }

  /** The `{{nome}}` step on a template laid out in order. */
  lemma NameStep(a: string, b: string, c: string, d: string, name: string)
    requires '{' !in a && '$' !in name
    ensures ReplaceFirst(a + (NamePlaceholder + (b + (DatePlaceholder + (c + (TimePlaceholder + d))))), NamePlaceholder, name)
         == a + (name + (b + (DatePlaceholder + (c + (TimePlaceholder + d)))))
  {
    ReplaceAfter(a, NamePlaceholder, b + (DatePlaceholder + (c + (TimePlaceholder + d))), name);
  }

  /** The `{{data}}` step, after the name is in place. */
  lemma DateStep(a: string, b: string, c: string, d: string, name: string, date: string)
    requires '{' !in a && '{' !in name && '{' !in b && '$' !in date
    ensures ReplaceFirst(a + (name + (b + (DatePlaceholder + (c + (TimePlaceholder + d))))), DatePlaceholder, date)
         == a + (name + (b + (date + (c + (TimePlaceholder + d)))))
  {
    var rest := c + (TimePlaceholder + d);
    ReplacePastPrefix(a, name + (b + (DatePlaceholder + rest)), DatePlaceholder, date);
    ReplacePastPrefix(name, b + (DatePlaceholder + rest), DatePlaceholder, date);
    ReplaceAfter(b, DatePlaceholder, rest, date);
  }

  /** The `{{hora}}` step, after the name and the date are in place. */
  lemma TimeStep(a: string, b: string, c: string, d: string, name: string, date: string, time: string)
    requires '{' !in a && '{' !in name && '{' !in b && '{' !in date && '{' !in c && '$' !in time
    ensures ReplaceFirst(a + (name + (b + (date + (c + (TimePlaceholder + d))))), TimePlaceholder, time)
         == a + (name + (b + (date + (c + (time + d)))))
  {
    var tail := date + (c + (TimePlaceholder + d));
    ReplacePastPrefix(a, name + (b + tail), TimePlaceholder, time);
    ReplacePastPrefix(name, b + tail, TimePlaceholder, time);
    ReplacePastPrefix(b, tail, TimePlaceholder, time);
    ReplacePastPrefix(date, c + (TimePlaceholder + d), TimePlaceholder, time);
    ReplaceAfter(c, TimePlaceholder, d, time);
  }

  /** Regrouping a seven-part concatenation to the right. */
  lemma Regroup(a: string, b: string, c: string, d: string, e: string, f: string, g: string)
    ensures a + b + c + d + e + f + g == a + (b + (c + (d + (e + (f + g)))))
  {
  }

  /**
   * A template laid out as `a {{nome}} b {{data}} c {{hora}} d`, whose
   * literal parts and values hold no `{` and whose values hold no `$`,
   * renders to the values in the placeholders' places.
   */
  lemma RenderInOrder(a: string, b: string, c: string, d: string, name: string, date: string, time: string)
    requires '{' !in a && '{' !in b && '{' !in c
    requires '{' !in name && '{' !in date
    requires '$' !in name && '$' !in date && '$' !in time
    ensures Render(a + (NamePlaceholder + (b + (DatePlaceholder + (c + (TimePlaceholder + d))))), name, date, time)
         == a + (name + (b + (date + (c + (time + d)))))
  {
    NameStep(a, b, c, d, name);
    DateStep(a, b, c, d, name, date);
    TimeStep(a, b, c, d, name, date, time);
  }

  /** The default template with plain values reads as the fixed Portuguese sentence. */
  lemma DefaultTemplateRender(name: string, date: string, time: string)
    requires '{' !in name && '{' !in date
    requires '$' !in name && '$' !in date && '$' !in time
    ensures Render(DefaultTemplate, name, date, time)
         == "Olá " + name + ", seu atendimento está agendado para " + date + " às " + time + "."
  {
    var a, b, c, d := "Olá ", ", seu atendimento está agendado para ", " às ", ".";
    Regroup(a, NamePlaceholder, b, DatePlaceholder, c, TimePlaceholder, d);
    RenderInOrder(a, b, c, d, name, date, time);
    Regroup(a, name, b, date, c, time, d);
  }

  /** The example template cut at its placeholders. */
  lemma ExampleTemplateParts()
    ensures "Olá {{nome}}, ... {{data}} ... {{hora}}."
         == "Olá " + (NamePlaceholder + (", ... " + (DatePlaceholder + (" ... " + (TimePlaceholder + ".")))))
  {
  }

  /** The example message glued back from its parts. */
  lemma ExampleMessageParts()
    ensures "Olá " + ("Ana" + (", ... " + ("05/03/2025" + (" ... " + ("14:30" + "."))))) == "Olá Ana, ... 05/03/2025 ... 14:30."
  {
  }

  /** The worked example: Ana, 05/03/2025, 14:30 leave no placeholder behind. */
  lemma RenderExample()
    ensures Render("Olá {{nome}}, ... {{data}} ... {{hora}}.", "Ana", "05/03/2025", "14:30")
         == "Olá Ana, ... 05/03/2025 ... 14:30."
  {
    ExampleTemplateParts();
    RenderInOrder("Olá ", ", ... ", " ... ", ".", "Ana", "05/03/2025", "14:30");
    ExampleMessageParts();
  }

  /**
   * Substitution is sequential: a name that itself reads `{{data}}` is
   * rewritten by the date step, and the template's own `{{data}}` survives.
   */
  lemma NameRewrittenByDateStep(date: string, time: string)
    requires '{' !in date && '$' !in date
    ensures Render(NamePlaceholder + ", " + DatePlaceholder, DatePlaceholder, date, time)
         == date + ", " + DatePlaceholder
  {
    var rest := ", " + DatePlaceholder;
    assert NamePlaceholder + ", " + DatePlaceholder == NamePlaceholder + rest;
    ReplaceAtStart(NamePlaceholder, rest, DatePlaceholder);
    ReplaceAtStart(DatePlaceholder, rest, date);
    var a := date + ", ";
    assert date + rest == a + DatePlaceholder;
    ReplaceSameLength(DatePlaceholder, TimePlaceholder, time);
    ReplacePastPrefixNone(a, DatePlaceholder, TimePlaceholder, time);
  }

  /**
   * The replacement is not literal: a name reading `$&` stands for the
   * matched text, so the message keeps `{{nome}}` instead of the name.
   */
  lemma DollarAmpersandName(date: string, time: string)
    ensures Render(NamePlaceholder, "$&", date, time) == NamePlaceholder
  {
    ReplaceAtStart(NamePlaceholder, "", "$&");
    assert NamePlaceholder + "" == NamePlaceholder;
    ReplaceSameLength(NamePlaceholder, DatePlaceholder, date);
    ReplaceSameLength(NamePlaceholder, TimePlaceholder, time);
  }
}
