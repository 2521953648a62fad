/**
 * The wizard context shared by the steps of round creation: the data
 * collected so far and the index of the step on screen.
 */
module FormWizard {

  /** A form value: text, a date (milliseconds since the epoch), or a nested object. */
  datatype FormValue =
    | Text(text: string)
    | Instant(ms: int)
    | Record(fields: map<string, FormValue>)

  class FormContext {
    var currentStep: int
    var formData: map<string, FormValue>

    /** `setFormData` */
    method SetFormData(data: map<string, FormValue>)
      modifies this`formData
      ensures formData == data
    {
      formData := data;
    }

    /** `setCurrentStep` */
    method SetCurrentStep(step: int)
      modifies this`currentStep
      ensures currentStep == step
    {
      currentStep := step;
    }
  }
}
