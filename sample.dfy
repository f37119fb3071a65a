/**
  The computed-style sample read from one element (tests/randw-style-analysis.spec.ts:67-90).
  Every field is the serialised computed-style string; the empty string is the value
  JavaScript treats as falsy.
 */
module StyleSample {

  datatype Sample = Sample(
    fontFamily: string,
    fontSize: string,
    fontWeight: string,
    lineHeight: string,
    color: string,
    backgroundColor: string,
    borderColor: string,
    margin: string,
    padding: string,
    gap: string,
    display: string,
    flexDirection: string,
    gridTemplateColumns: string,
    gridTemplateRows: string,
    width: string,
    maxWidth: string,
    minWidth: string,
    borderRadius: string,
    boxShadow: string,
    transition: string,
    transform: string,
    animation: string)

  /**
    What one probe of the page, or one iteration of the responsive pass, yields: a sample,
    no matching element (`null`), or an exception.
   */
  datatype ProbeOutcome = Observed(sample: Sample) | NoElement | Threw
}
