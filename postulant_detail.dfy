/** The PostulantDetail page's decision flow: approving or rejecting an
    applicant, the confirmation that follows, and the status the page shows
    afterwards. */
module PostulantDetail {
  import opened Js
  import opened StatusLabels

  /** The two decisions (`actionLoading` and `modalConfirm.type`). */
  datatype Action = Approve | Reject

  /** The status a decision leads to once it is confirmed. */
  function TargetStatus(a: Action): string
  {
    match a
    case Approve => "APPROVED"
    case Reject => "REJECTED"
  }

  /** The other decision. */
  function Opposite(a: Action): Action
  {
    match a
    case Approve => Reject
    case Reject => Approve
  }

  /** The endpoint a decision posts to. */
  function ActionPath(a: Action): string
  {
    match a
    case Approve => "approve"
    case Reject => "reject"
  }

  /** The confirmation shown after the server accepted a decision. */
  datatype Confirmation = Confirmation(kind: Action, msg: string)

  function SuccessMessage(a: Action): string
  {
    match a
    case Approve => "¡Solicitud aprobada exitosamente! Se ha enviado un correo de confirmación al postulante."
    case Reject => "Solicitud rechazada. Se ha enviado un correo de notificación al postulante."
  }

  function FailureMessage(a: Action): string
  {
    match a
    case Approve => "Error al aprobar la solicitud"
    case Reject => "Error al rechazar la solicitud"
  }

  class PostulantDetailPage {
    /** The `id` route parameter. */
    const id: Option<string>
    /** `data.statusVolunteer` of the loaded profile. */
    const statusVolunteer: string
    var actionLoading: Option<Action>
    var actionMsg: Option<string>
    var modalConfirm: Option<Confirmation>
    var localStatus: Option<string>

    /** `localStatus` is only ever set to the status of a confirmed decision. */
    ghost predicate Valid()
      reads this
    {
      localStatus == None || localStatus == Some("APPROVED") || localStatus == Some("REJECTED")
    }

    /** The page once the profile has loaded. */
    constructor (id: Option<string>, statusVolunteer: string)
      ensures this.id == id && this.statusVolunteer == statusVolunteer
      ensures actionLoading == None && actionMsg == None && modalConfirm == None && localStatus == None
      ensures Valid()
    {
      this.id := id;
      this.statusVolunteer := statusVolunteer;
      actionLoading, actionMsg, modalConfirm, localStatus := None, None, None, None;
    }

    /** `localStatus || data.statusVolunteer`. */
    function EffectiveStatus(): (status: string)
      reads this
      ensures Present(localStatus) ==> status == localStatus.value
      ensures !Present(localStatus) ==> status == statusVolunteer
    {
      if Present(localStatus) then localStatus.value else statusVolunteer
    }

    /** A decision's button is disabled while any decision is in flight or
      when the applicant already has the status it leads to. With nothing
      in flight, a disabled button leaves the other one enabled. */
    function Disabled(a: Action): (d: bool)
      reads this
      ensures actionLoading.Some? ==> d
      ensures actionLoading.None? ==> (d <==> EffectiveStatus() == TargetStatus(a))
      ensures actionLoading.None? && d ==> EffectiveStatus() != TargetStatus(Opposite(a))
    {
      actionLoading.Some? || EffectiveStatus() == TargetStatus(a)
    }

    /** The status tag: the label of the effective status, or the status
      itself when it has none. */
    function StatusTag(): (tag: string)
      reads this
      ensures EffectiveStatus() in StatusTable() ==> tag == StatusTable()[EffectiveStatus()]
      ensures EffectiveStatus() !in StatusTable() ==> tag == EffectiveStatus()
    {
      StatusLabel(EffectiveStatus())
    }

    /** `handleApprove`/`handleReject` up to the request: without an id
      nothing happens; otherwise the decision is marked in flight, the old
      message is cleared, and the path of the POST is returned. */
    method BeginAction(a: Action) returns (request: Option<string>)
      modifies this`actionLoading, this`actionMsg
      ensures !Present(id) ==> request == None && actionLoading == old(actionLoading) && actionMsg == old(actionMsg)
      ensures Present(id) ==>
        && request == Some("http://localhost:3000/api/volunteer/" + id.value + "/" + ActionPath(a))
        && actionLoading == Some(a) && actionMsg == None
      ensures Present(id) ==> Disabled(Approve) && Disabled(Reject)
    {
      if !Present(id) {
        return None;
      }
      actionLoading := Some(a);
      actionMsg := None;
      request := Some("http://localhost:3000/api/volunteer/" + id.value + "/" + ActionPath(a));
    }

    /** The rest of the handler once the request settles: an ok response
      opens the confirmation, anything else sets the error message; either
      way no decision is in flight any more. The status does not change. */
    method SettleAction(a: Action, ok: bool)
      modifies this`actionLoading, this`actionMsg, this`modalConfirm
      ensures actionLoading == None
      ensures ok ==> modalConfirm == Some(Confirmation(a, SuccessMessage(a))) && actionMsg == old(actionMsg)
      ensures !ok ==> actionMsg == Some(FailureMessage(a)) && modalConfirm == old(modalConfirm)
    {
      if ok {
        modalConfirm := Some(Confirmation(a, SuccessMessage(a)));
      } else {
        actionMsg := Some(FailureMessage(a));
      }
      actionLoading := None;
    }

    /** A click on a decision's button: a disabled button does nothing. */
    method Click(a: Action) returns (request: Option<string>)
      modifies this`actionLoading, this`actionMsg
      ensures old(Disabled(a)) ==> request == None && actionLoading == old(actionLoading) && actionMsg == old(actionMsg)
      ensures request.Some? ==> !old(Disabled(a)) && actionLoading == Some(a)
      ensures !old(Disabled(a)) && Present(id) ==>
        && request == Some("http://localhost:3000/api/volunteer/" + id.value + "/" + ActionPath(a))
        && actionLoading == Some(a) && actionMsg == None
      ensures !old(Disabled(a)) && !Present(id) ==>
        request == None && actionLoading == old(actionLoading) && actionMsg == old(actionMsg)
    {
      if Disabled(a) {
        return None;
      }
      request := BeginAction(a);
    }

    /** `closeModalConfirm`: the confirmed decision becomes the shown status
      and the confirmation closes. This is the only place the status
      changes. */
    method CloseModalConfirm()
      modifies this`localStatus, this`modalConfirm
      requires Valid()
      ensures Valid()
      ensures modalConfirm == None
      ensures old(modalConfirm).Some? ==> localStatus == Some(TargetStatus(old(modalConfirm).value.kind))
      ensures old(modalConfirm).None? ==> localStatus == old(localStatus)
      ensures old(modalConfirm).Some? ==> EffectiveStatus() == TargetStatus(old(modalConfirm).value.kind)
      ensures old(modalConfirm).Some? ==> Disabled(old(modalConfirm).value.kind)
    {
      if modalConfirm.Some? && modalConfirm.value.kind == Approve {
        localStatus := Some("APPROVED");
      }
      if modalConfirm.Some? && modalConfirm.value.kind == Reject {
        localStatus := Some("REJECTED");
      }
      modalConfirm := None;
    }
  }
}
