/** The JSON records exchanged between the backend and the browser. The
    same records are produced by the backend services and stored by the
    frontend state container; a field JavaScript may find missing is an
    `Option`. */
module Dto {
  import opened Wrappers

  datatype CompositionDto = CompositionDto(id: int, rawMaterialId: int, rawMaterialName: string, requiredQuantity: int)

  datatype ProductDto = ProductDto(id: int, name: string, price: real, compositions: Option<seq<CompositionDto>>)

  datatype RawMaterialDto = RawMaterialDto(id: int, name: string, stockQuantity: int)

  datatype ProductionItemDto = ProductionItemDto(productName: string, quantityToProduce: Option<int>, subtotal: real)

  datatype ProductionReportDto = ProductionReportDto(suggestedItems: Option<seq<ProductionItemDto>>, totalEstimatedValue: Option<real>)
}
