/** The BeneficiaryList page: server-side paging with a search term and a
    status filter, and the checks on an Excel file before it is imported. */
module BeneficiaryList {
  import opened Js

  /** `tableParams.pagination`. */
  datatype Pagination = Pagination(current: int, pageSize: int, total: Option<int>)

  /** The query `getAll` sends to `/beneficiary/page`. */
  datatype PageQuery = PageQuery(page: int, limit: int, search: string, status: Option<string>)

  /** A page of beneficiaries as the server returns it. */
  datatype ListResponse = ListResponse(data: seq<Obj>, total: int, page: int, limit: int)

  /** A notification toast. */
  datatype Toast = Error(text: string) | Success(text: string)

  /** The status sent to the server: none for "all", the filter otherwise. */
  function StatusParam(statusFilter: string): (status: Option<string>)
    ensures status.None? <==> statusFilter == "all"
    ensures status.Some? ==> status.value == statusFilter
  {
    if statusFilter != "all" then Some(statusFilter) else None
  }

  /** `pagination.pageSize || 10`: a zero page size falls back to ten. */
  function PageSizeOrDefault(p: Pagination): (size: int)
    ensures size != 0
    ensures p.pageSize != 0 ==> size == p.pageSize
  {
    if p.pageSize != 0 then p.pageSize else 10
  }

  /** The pagination after a new search or status filter: back to page 1,
      the page size kept (or ten), the total kept. */
  function BackToFirstPage(p: Pagination): (q: Pagination)
    ensures q.current == 1
    ensures q.pageSize == PageSizeOrDefault(p) && q.total == p.total
  {
    Pagination(1, PageSizeOrDefault(p), p.total)
  }

  /** Resetting twice is resetting once. */
  lemma BackToFirstPageIdempotent(p: Pagination)
    ensures BackToFirstPage(BackToFirstPage(p)) == BackToFirstPage(p)
  {
  }

  /** The two Excel MIME types the upload accepts. */
  function IsExcel(mime: string): (ok: bool)
    ensures ok <==> mime in {"application/vnd.openxmlformats-officedocument.spreadsheetml.sheet", "application/vnd.ms-excel"}
  {
    mime == "application/vnd.openxmlformats-officedocument.spreadsheetml.sheet"
    || mime == "application/vnd.ms-excel"
  }

  /** Dividing by 1024 twice and comparing with 5 is comparing with 5 MiB. */
  lemma {:induction false} MebibyteBound(size: nat)
    ensures (size as real) / 1024.0 / 1024.0 < 5.0 <==> size < 5242880
  {
    var r := size as real;
    assert r / 1024.0 / 1024.0 == r / 1048576.0;
    assert r / 1048576.0 < 5.0 <==> r < 5242880.0;
  }

  /** `file.size / 1024 / 1024 < 5`, in JavaScript's floating-point division
      (exact here: the divisors are powers of two). It lets a file through
      exactly when it is smaller than 5 MiB, 5242880 bytes. */
  function UnderSizeLimit(size: nat): (ok: bool)
    ensures ok <==> size < 5242880
  {
    MebibyteBound(size);
    (size as real) / 1024.0 / 1024.0 < 5.0
  }

  /** A file chosen for import. */
  datatype File = File(mime: string, size: nat)

  const NotExcelMessage: string := "Solo se permiten archivos Excel (.xlsx, .xls)"
  const TooLargeMessage: string := "El archivo debe ser menor a 5MB"

  /** `handleUpload` with the import's outcome. The MIME type is checked
      first, then the size; a file failing either is dropped from the list
      (`ignored`) and never sent. A sent file reports the import's outcome,
      and a successful import refetches the current page. */
  method HandleUpload(file: File, importOk: bool) returns (ignored: bool, sent: bool, toast: Toast, refetch: bool)
    ensures sent <==> IsExcel(file.mime) && UnderSizeLimit(file.size)
    ensures ignored <==> !sent
    ensures !IsExcel(file.mime) ==> toast == Error(NotExcelMessage)
    ensures IsExcel(file.mime) && !UnderSizeLimit(file.size) ==> toast == Error(TooLargeMessage)
    ensures sent && importOk ==> toast == Success("Archivo subido exitosamente")
    ensures sent && !importOk ==> toast == Error("Error al subir el archivo")
    ensures refetch <==> sent && importOk
  {
    var isExcel := IsExcel(file.mime);
    if !isExcel {
      return true, false, Error(NotExcelMessage), false;
    }
    var isLt2M := (file.size as real) / 1024.0 / 1024.0 < 5.0;
    if !isLt2M {
      return true, false, Error(TooLargeMessage), false;
    }
    if importOk {
      toast, refetch := Success("Archivo subido exitosamente"), true;
    } else {
      toast, refetch := Error("Error al subir el archivo"), false;
    }
    ignored, sent := false, true;
  }

  class BeneficiaryListPage {
    var beneficiaries: seq<Obj>
    var loading: bool
    var pagination: Pagination
    var searchTerm: string
    var statusFilter: string

    constructor ()
      ensures beneficiaries == [] && loading
      ensures pagination == Pagination(1, 10, None)
      ensures searchTerm == "" && statusFilter == "all"
    {
      beneficiaries, loading := [], true;
      pagination := Pagination(1, 10, None);
      searchTerm, statusFilter := "", "all";
    }

    /** The query `fetchBeneficiaries(tableParams)` sends for the current
      state. */
    function Query(): (q: PageQuery)
      reads this
      ensures q.page == pagination.current && q.limit == pagination.pageSize
      ensures q.search == searchTerm
      ensures q.status.None? <==> statusFilter == "all"
    {
      PageQuery(pagination.current, pagination.pageSize, searchTerm, StatusParam(statusFilter))
    }

    /** `handleSearch`: the new term, and back to page 1. */
    method HandleSearch(value: string)
      modifies this`searchTerm, this`pagination
      ensures searchTerm == value && statusFilter == old(statusFilter)
      ensures pagination == BackToFirstPage(old(pagination))
      ensures Query().page == 1 && Query().search == value
    {
      searchTerm := value;
      pagination := Pagination(1, PageSizeOrDefault(pagination), pagination.total);
    }

    /** `handleStatusFilter`: the new status, and back to page 1. */
    method HandleStatusFilter(value: string)
      modifies this`statusFilter, this`pagination
      ensures statusFilter == value && searchTerm == old(searchTerm)
      ensures pagination == BackToFirstPage(old(pagination))
      ensures Query().page == 1 && Query().status == StatusParam(value)
    {
      statusFilter := value;
      pagination := Pagination(1, PageSizeOrDefault(pagination), pagination.total);
    }

    /** `fetchBeneficiaries` once the request settles (`None`: it failed).
      A response replaces the rows and the paging with what the server
      reports; a failure only shows an error. */
    method FetchBeneficiaries(response: Option<ListResponse>) returns (toast: Option<Toast>)
      modifies this`beneficiaries, this`pagination, this`loading
      ensures !loading
      ensures response.Some? ==>
        && beneficiaries == response.value.data
        && pagination == Pagination(response.value.page, response.value.limit, Some(response.value.total))
        && toast == None
      ensures response.None? ==>
        && beneficiaries == old(beneficiaries) && pagination == old(pagination)
        && toast == Some(Error("Error al cargar los beneficiarios"))
    {
      loading := true;
      toast := None;
      match response {
        case Some(r) =>
          beneficiaries := r.data;
          pagination := Pagination(r.page, r.limit, Some(r.total));
        case None =>
          toast := Some(Error("Error al cargar los beneficiarios"));
      }
      loading := false;
    }
  }
}
