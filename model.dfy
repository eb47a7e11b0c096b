/** The record behind one grid cell: a position in the virtual dataset, an
    image resource id (opaque here) and the text shown under the image. */
module Model {
  datatype TestDataModel = TestDataModel(index: int, imageResource: int, content: string)
}
