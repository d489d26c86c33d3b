/** The `DELETE /api/veiculos/:id` handler: look up the vehicle's Drive folder id, delete
    the vehicle row (the database cascades to its photo rows), then try to delete the Drive
    folder, ignoring any failure of that last step. The database and Drive are abstract;
    whether each call fails is an input. */
module DeleteWorkflow {
  import opened Basics

  /** A row of the photos table. */
  datatype PhotoRow = PhotoRow(veiculoId: string, url: string, ordem: nat)

  /** The calls the handler makes, in the order it makes them. */
  datatype Call =
    | SelectFolderId(id: string)
    | DeleteVehicleRow(id: string)
    | DeleteVehicleFolder(folderId: string)

  datatype Failed = FetchFailed | DeleteFailed

  /** `{ success: true }`, or status 500 with the error that aborted the handler. */
  datatype Response = Success200 | Error500(cause: Failed)

  /** `veiculo?.google_drive_folder_id` is truthy: present and not empty. */
  function HasFolder(folder: Option<string>): (b: bool)
    ensures b <==> folder != None && folder != Some("")
    ensures b ==> |folder.value| > 0
  {
    folder.Some? && folder.value != ""
  }

  /** The photo rows that survive the cascade when vehicle `id` is deleted. */
  function RowsNotOf(rows: seq<PhotoRow>, id: string): (r: seq<PhotoRow>)
    ensures forall p :: p in r <==> p in rows && p.veiculoId != id
  {
    if rows == [] then []
    else if rows[0].veiculoId == id then RowsNotOf(rows[1..], id)
    else [rows[0]] + RowsNotOf(rows[1..], id)
  }

  /** The vehicles and photos tables, the Drive folders, and the log of calls made. */
  class Backend {
    var veiculos: map<string, Option<string>>
    var fotos: seq<PhotoRow>
    var driveFolders: set<string>
    var calls: seq<Call>

    /** Every photo row belongs to an existing vehicle row. */
    ghost predicate Valid()
      reads this
    {
      forall p :: p in fotos ==> p.veiculoId in veiculos
    }

    constructor (veiculos: map<string, Option<string>>, fotos: seq<PhotoRow>, driveFolders: set<string>)
      requires forall p :: p in fotos ==> p.veiculoId in veiculos
      ensures Valid()
      ensures this.veiculos == veiculos && this.fotos == fotos && this.driveFolders == driveFolders
      ensures calls == []
    {
      this.veiculos := veiculos;
      this.fotos := fotos;
      this.driveFolders := driveFolders;
      calls := [];
    }

    /** The handler. `fetchOk`, `deleteOk` and `driveOk` say whether the lookup, the row
        deletion and the folder deletion succeed; a lookup of a missing id always fails
        (`.single()` finds no row).
        - A failed lookup answers 500 and changes nothing.
        - A failed row deletion answers 500, changes nothing and never reaches Drive.
        - Otherwise the row and its photo rows are gone, the folder deletion is attempted
          after the row deletion only when the folder id is truthy, and the answer is
          success whether or not that deletion worked. */
    method DeleteVeiculo(id: string, fetchOk: bool, deleteOk: bool, driveOk: bool)
      returns (response: Response)
      requires Valid()
      modifies this
      ensures Valid()
      ensures !(fetchOk && id in old(veiculos)) ==>
        response == Error500(FetchFailed)
        && veiculos == old(veiculos) && fotos == old(fotos) && driveFolders == old(driveFolders)
        && calls == old(calls) + [SelectFolderId(id)]
      ensures fetchOk && id in old(veiculos) && !deleteOk ==>
        response == Error500(DeleteFailed)
        && veiculos == old(veiculos) && fotos == old(fotos) && driveFolders == old(driveFolders)
        && calls == old(calls) + [SelectFolderId(id), DeleteVehicleRow(id)]
      ensures fetchOk && id in old(veiculos) && deleteOk ==>
        var folder := old(veiculos)[id];
        response == Success200
        && veiculos == old(veiculos) - {id} && fotos == RowsNotOf(old(fotos), id)
        && calls == old(calls) + [SelectFolderId(id), DeleteVehicleRow(id)]
                   + (if HasFolder(folder) then [DeleteVehicleFolder(folder.value)] else [])
        && driveFolders == (if HasFolder(folder) && driveOk then old(driveFolders) - {folder.value}
                            else old(driveFolders))
      ensures response == Success200 ==>
        id !in veiculos && forall p :: p in fotos ==> p.veiculoId != id
    {
      // Look up the folder id first.
      calls := calls + [SelectFolderId(id)];
      if !fetchOk || id !in veiculos {
        return Error500(FetchFailed);
      }
      var folder := veiculos[id];

      // Delete the row; the database removes its photo rows with it.
      calls := calls + [DeleteVehicleRow(id)];
      if !deleteOk {
        return Error500(DeleteFailed);
      }
      veiculos := veiculos - {id};
      fotos := RowsNotOf(fotos, id);

      // Then the Drive folder, whose failure is only logged.
      if HasFolder(folder) {
        calls := calls + [DeleteVehicleFolder(folder.value)];
        if driveOk {
          driveFolders := driveFolders - {folder.value};
        }
      }
      response := Success200;
    }
  }

  /** Deleting a vehicle without photos leaves the photo rows as they were. */
  lemma {:induction false} RowsNotOfUntouched(rows: seq<PhotoRow>, id: string)
    requires forall p :: p in rows ==> p.veiculoId != id
    ensures RowsNotOf(rows, id) == rows
  {
    if rows != [] {
      RowsNotOfUntouched(rows[1..], id);
    }
  }

  /** Deleting two vehicles leaves the same photo rows, in the same order, whichever is
      deleted first. */
  lemma {:induction false} RowsNotOfCommute(rows: seq<PhotoRow>, a: string, b: string)
    ensures RowsNotOf(RowsNotOf(rows, a), b) == RowsNotOf(RowsNotOf(rows, b), a)
  {
    if rows != [] {
      RowsNotOfCommute(rows[1..], a, b);
    }
  }
}
