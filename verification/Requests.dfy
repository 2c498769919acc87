/** prepare_generation: the bounds every submitted job satisfies. */
module Requests {
  import opened Common
  import opened Network

  datatype Prepared = Ready(prompt: seq<Token>, maxGen: nat) | EmptyPrompt | IdOutOfRange | TooLong

  function PrepareGeneration(prompt: seq<Token>, nVocab: nat, nCtx: nat, requested: Option<nat>): (r: Prepared)
    ensures r.Ready? <==>
      prompt != [] && |prompt| < nCtx && forall i :: 0 <= i < |prompt| ==> (prompt[i] as int) < nVocab
    ensures r.Ready? ==> r.prompt == prompt && 1 <= r.maxGen && |prompt| + r.maxGen <= nCtx
    ensures r.Ready? && requested.Some? && 1 <= requested.value <= nCtx - |prompt| ==> r.maxGen == requested.value
    ensures r.Ready? && (requested.None? || requested.value >= nCtx - |prompt|) ==> |prompt| + r.maxGen == nCtx
    ensures r.Ready? && requested == Some(0) ==> r.maxGen == 1
    ensures r.EmptyPrompt? <==> prompt == []
    ensures r.IdOutOfRange? <==> exists i :: 0 <= i < |prompt| && (prompt[i] as int) >= nVocab
  {
    if prompt == [] then EmptyPrompt
    else if exists i :: 0 <= i < |prompt| && prompt[i] as int >= nVocab then IdOutOfRange
    else if |prompt| >= nCtx then TooLong
    else
      var capacity := nCtx - |prompt|;
      var asked := if requested.Some? then requested.value else capacity;
      var capped := Min(asked, capacity);
      Ready(prompt, if capped > 1 then capped else 1)
  }
}
