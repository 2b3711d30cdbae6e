/**
 * `truncate_text`, nested in `LabelGenerator.create_label` of
 * utils/label_generator.py: texts printed on a label are cut to a number
 * of characters, the cut marked with "...". The label drawing itself is
 * not modelled.
 */
module LabelGenerator {
  import opened Text

  /** `text[:max_chars-3] + "..."` when the text is longer than `max_chars`, Python slicing included. */
  function Truncate(text: string, maxChars: int): string {
    if |text| > maxChars then PyUpTo(text, maxChars - 3) + "..." else text
  }

  /** A text within the budget is printed as it is. */
  lemma ShortTextKept(text: string, maxChars: int)
    requires |text| <= maxChars
    ensures Truncate(text, maxChars) == text
  {
  }

  /** A longer text keeps its first `maxChars - 3` characters followed by "...". */
  lemma LongTextCut(text: string, maxChars: int)
    requires |text| > maxChars >= 3
    ensures Truncate(text, maxChars) == text[..maxChars - 3] + "..."
    ensures |Truncate(text, maxChars)| == maxChars
  {
  }

  /** With a budget of at least three the result fits the budget, and truncating again changes nothing. */
  lemma TruncateFitsAndSettles(text: string, maxChars: int)
    requires maxChars >= 3
    ensures |Truncate(text, maxChars)| <= maxChars
    ensures Truncate(Truncate(text, maxChars), maxChars) == Truncate(text, maxChars)
  {
  }

  /** Below three characters Python's negative slice bound applies: with a budget of 2 a second truncation lengthens the text. */
  lemma SmallBudgetGrows()
    ensures Truncate("abc", 2) == "ab..."
    ensures Truncate(Truncate("abc", 2), 2) == "ab....."
  {
  }
}
