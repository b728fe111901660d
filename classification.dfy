/** What the image classifier hands back to the extension. */
module Classification {

  /** One ranked entry: a label (`className`, as `label` is a Dafny keyword) and its
      confidence. The confidence is a JavaScript number that the extension only passes
      on, so a `real` stands for it. */
  datatype Prediction = Prediction(className: string, confidence: real)

  /** The outcome of one classification call, as delivered to its completion callback:
      an error, or the ranked entries, best first. */
  datatype Completion = Failed(error: string) | Succeeded(predictions: seq<Prediction>)
}
