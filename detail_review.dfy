/** frontend/src/components/DetailReview: shortening review bodies for the list view. */
module DetailReview {

  const MaxContentLength := 100

  /** truncateContent: short content unchanged, long content cut to 100 characters plus "...". */
  function TruncateContent(content: string): (r: string)
    ensures |content| <= MaxContentLength ==> r == content
    ensures |content| > MaxContentLength ==>
      |r| == MaxContentLength + 3 && r[..MaxContentLength] == content[..MaxContentLength]
      && r[MaxContentLength..] == "..."
  {
    if |content| <= MaxContentLength then content
    else content[..MaxContentLength] + "..."
  }

  /** The result always starts with the first min(100, |content|) characters of the input. */
  lemma TruncateKeepsPrefix(content: string)
    ensures var n := if |content| <= MaxContentLength then |content| else MaxContentLength;
      n <= |TruncateContent(content)| && TruncateContent(content)[..n] == content[..n]
  {
  }

  /** Truncating twice is the same as truncating once. */
  lemma TruncateIdempotent(content: string)
    ensures TruncateContent(TruncateContent(content)) == TruncateContent(content)
  {
  }
}
