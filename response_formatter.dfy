/** ResponseFormatterService: fits a generated answer into the form field's character limit. */
module ResponseFormatter {
  import opened Wrappers
  import opened Text

  /** FormatResponse(response, characterLimit). A blank answer becomes ""; an answer that
      fits (or has no positive limit) is kept; a longer one is cut at the last space the
      first `limit` characters hold (when that space is not at index 0) and gets "...". */
  function FormatResponse(response: string, characterLimit: Option<int>): (r: string)
    ensures IsBlank(response) ==> r == ""
    ensures !IsBlank(response) && (characterLimit.None? || characterLimit.value <= 0) ==> r == response
    ensures (!IsBlank(response) && characterLimit.Some? && 0 < characterLimit.value &&
             |response| <= characterLimit.value) ==> r == response
    ensures !IsBlank(response) && characterLimit.Some? && 0 < characterLimit.value < |response| ==>
              var limit, k := characterLimit.value, |r| - 3;
              // a proper prefix of the answer, followed by the ellipsis
              0 < k <= limit && r == response[..k] + "..." &&
              // nothing after the cut, within the first `limit` characters, is a space
              (forall m :: k < m < limit ==> response[m] != ' ') &&
              // a cut before the limit falls on a space ...
              (k < limit ==> response[k] == ' ') &&
              // ... and a cut at the limit means no space after index 0 was available
              (k == limit ==> forall m :: 0 < m < limit ==> response[m] != ' ')
  {
    if IsBlank(response) then ""
    else if characterLimit.None? || characterLimit.value <= 0 then response
    else if |response| <= characterLimit.value then response
    else
      var trimmed := response[..characterLimit.value];
      var lastSpace := LastIndexOf(trimmed, ' ');
      (if lastSpace > 0 then trimmed[..lastSpace] else trimmed) + "..."
  }
}
