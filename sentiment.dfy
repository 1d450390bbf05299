/**
 * The sentiment page's choice of emoji for the classifier's label
 * (main.py, lines 110-115).
 */
module Sentiment {
  /** U+1F60A, smiling face with smiling eyes. */
  const Smiling: string := "\U{1F60A}"
  /** U+1F61E, disappointed face. */
  const Disappointed: string := "\U{1F61E}"
  /** U+1F610, neutral face. */
  const Neutral: string := "\U{1F610}"

  /** "POSITIVE" smiles, "NEGATIVE" is disappointed, any other label is neutral. */
  function EmojiFor(tag: string): (emoji: string)
    ensures emoji == Smiling <==> tag == "POSITIVE"
    ensures emoji == Disappointed <==> tag == "NEGATIVE"
    ensures emoji == Neutral <==> tag != "POSITIVE" && tag != "NEGATIVE"
  {
    if tag == "POSITIVE" then Smiling
    else if tag == "NEGATIVE" then Disappointed
    else Neutral
  }
}
