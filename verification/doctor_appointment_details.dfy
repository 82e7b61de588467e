/**
 * The doctor's appointment page (frontend/src/pages/doctor/DoctorAppointmentDetails.jsx):
 * the notes editor and the confirm-gated status change. Its action buttons
 * are those of the administrator's page, `AppointmentDetails.DetailButtons`.
 */
module DoctorAppointmentDetails {
  import opened Base
  import opened AppointmentStatus

  /** The fetched appointment, as far as this page inspects it. */
  datatype AppointmentRecord = AppointmentRecord(status: string, notes: Option<string>)

  /** The caption of the notes button: "Edit Notes" exactly when notes are
      stored (a non-empty string), else "Add Notes". */
  function NotesButtonCaption(storedNotes: Option<string>): (text: string)
    ensures text == "Edit Notes" <==> storedNotes.Some? && storedNotes.value != ""
    ensures text == "Add Notes" <==> !(storedNotes.Some? && storedNotes.value != "")
  {
    if storedNotes.Some? && storedNotes.value != "" then "Edit Notes" else "Add Notes"
  }

  class DoctorAppointmentDetailsPage {
    var appointment: Option<AppointmentRecord>
    var notes: string
    var isEditingNotes: bool
    var processing: bool

    constructor ()
      ensures appointment == None && notes == "" && !isEditingNotes && !processing
    {
      appointment := None;
      notes := "";
      isEditingNotes := false;
      processing := false;
    }

    /** The end of `fetchAppointmentDetails`: a fetched appointment is stored
        and its notes (or `""`) loaded into the editor; a failed fetch
        navigates away and changes nothing here. */
    method FinishFetch(data: Option<AppointmentRecord>)
      modifies this
      ensures data.Some? ==> appointment == data && notes == OrEmpty(data.value.notes)
      ensures data.None? ==> appointment == old(appointment) && notes == old(notes)
      ensures isEditingNotes == old(isEditingNotes) && processing == old(processing)
    {
      if data.Some? {
        appointment := data;
        notes := OrEmpty(data.value.notes);
      }
    }

    /** The notes button. */
    method StartEditingNotes()
      modifies this
      ensures isEditingNotes
      ensures appointment == old(appointment) && notes == old(notes) && processing == old(processing)
    {
      isEditingNotes := true;
    }

    /** The text area. */
    method SetNotes(text: string)
      modifies this
      ensures notes == text
      ensures appointment == old(appointment) && isEditingNotes == old(isEditingNotes) && processing == old(processing)
    {
      notes := text;
    }

    /** The editor's Cancel button, shown with a loaded appointment: leaves
        editing and puts back the stored notes (or `""`). */
    method CancelEditingNotes()
      requires appointment.Some?
      modifies this
      ensures appointment == old(appointment) && processing == old(processing)
      ensures !isEditingNotes && notes == OrEmpty(appointment.value.notes)
    {
      isEditingNotes := false;
      notes := OrEmpty(appointment.value.notes);
    }

    /** `handleSaveNotes`, with `saved` standing for whether `addAppointmentNotes`
        resolved: returns the text sent; a resolved save leaves editing and
        reloads; `processing` ends false either way. */
    method HandleSaveNotes(saved: bool) returns (sent: string, refetch: bool)
      modifies this
      ensures sent == old(notes) && refetch == saved
      ensures isEditingNotes == (old(isEditingNotes) && !saved)
      ensures !processing && notes == old(notes) && appointment == old(appointment)
    {
      processing := true;
      sent := notes;
      refetch := saved;
      if saved {
        isEditingNotes := false;
      }
      processing := false;
    }

    /** `handleStatusChange`, with `confirmed` the answer to the dialog and
        `succeeded` whether `updateAppointmentStatus` resolved: a declined
        dialog makes no call. */
    method HandleStatusChange(action: Action, confirmed: bool, succeeded: bool) returns (sent: Option<string>, refetch: bool)
      modifies this
      ensures sent == if confirmed then Some(Target(action)) else None
      ensures refetch <==> confirmed && succeeded
      ensures !processing || !confirmed
      ensures !confirmed ==> processing == old(processing)
      ensures appointment == old(appointment) && notes == old(notes) && isEditingNotes == old(isEditingNotes)
    {
      sent, refetch := None, false;
      if !confirmed {
        return;
      }
      processing := true;
      sent := Some(Target(action));
      refetch := succeeded;
      processing := false;
    }
  }
}
