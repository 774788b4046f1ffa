/** The default Milvus collection schemas and index parameters (services/constant.py). */
module MilvusSchema {
  import opened Wrappers

  /** The column types the default schemas use. */
  datatype DataType = VarChar | Int64 | FloatVector

  /** pymilvus `FieldSchema`, with its keyword defaults. */
  datatype FieldSchema = FieldSchema(
    name: string,
    dtype: DataType,
    maxLength: Option<nat> := None,
    isPrimary: bool := false,
    autoId: bool := false,
    isPartitionKey: bool := false,
    dim: Option<nat> := None)

  /** Longest value a VARCHAR column of the default schemas holds. */
  const VarCharMaxLength: nat := 65535

  /** `milvus_default_fields_1024`: the schema for 1024-dimensional embeddings. */
  const Fields1024: seq<FieldSchema> := [
    FieldSchema(name := "bbox", dtype := VarChar, maxLength := Some(65535)),
    FieldSchema(name := "start_page", dtype := Int64),
    FieldSchema(name := "source", dtype := VarChar, maxLength := Some(65535)),
    FieldSchema(name := "title", dtype := VarChar, maxLength := Some(65535)),
    FieldSchema(name := "chunk_index", dtype := Int64),
    FieldSchema(name := "extra", dtype := VarChar, maxLength := Some(65535)),
    FieldSchema(name := "file_id", dtype := VarChar, maxLength := Some(65535)),
    FieldSchema(name := "knowledge_id", dtype := VarChar, maxLength := Some(65535), isPartitionKey := true),
    FieldSchema(name := "text", dtype := VarChar, maxLength := Some(65535)),
    FieldSchema(name := "pk", dtype := Int64, isPrimary := true, autoId := true),
    FieldSchema(name := "vector", dtype := FloatVector, dim := Some(1024))
  ]

  /** `milvus_default_fields_768`: the schema for 768-dimensional embeddings, used by the vectorisation job. */
  const Fields768: seq<FieldSchema> := [
    FieldSchema(name := "bbox", dtype := VarChar, maxLength := Some(65535)),
    FieldSchema(name := "start_page", dtype := Int64),
    FieldSchema(name := "source", dtype := VarChar, maxLength := Some(65535)),
    FieldSchema(name := "title", dtype := VarChar, maxLength := Some(65535)),
    FieldSchema(name := "chunk_index", dtype := Int64),
    FieldSchema(name := "extra", dtype := VarChar, maxLength := Some(65535)),
    FieldSchema(name := "file_id", dtype := VarChar, maxLength := Some(65535)),
    FieldSchema(name := "knowledge_id", dtype := VarChar, maxLength := Some(65535), isPartitionKey := true),
    FieldSchema(name := "text", dtype := VarChar, maxLength := Some(65535)),
    FieldSchema(name := "pk", dtype := Int64, isPrimary := true, autoId := true),
    FieldSchema(name := "vector", dtype := FloatVector, dim := Some(768))
  ]

  /** `milvus_default_index_params`: index type, metric and build parameters of the vector index. */
  datatype IndexParams = IndexParams(indexType: string, metricType: string, params: map<string, int>)

  const DefaultIndexParams: IndexParams :=
    IndexParams(indexType := "HNSW", metricType := "L2", params := map["M" := 8, "efConstruction" := 64])

  /** The names of a schema's fields, in declaration order. */
  function FieldNames(fields: seq<FieldSchema>): seq<string>
  {
    seq(|fields|, i requires 0 <= i < |fields| => fields[i].name)
  }

  /** Both schemas declare the same eleven field names in the same order. */
  lemma SameFieldNames()
    ensures |Fields1024| == |Fields768| == 11
    ensures FieldNames(Fields1024) == FieldNames(Fields768)
    ensures FieldNames(Fields768) ==
      ["bbox", "start_page", "source", "title", "chunk_index", "extra", "file_id", "knowledge_id", "text", "pk", "vector"]
  {
  }

  /** The two schemas agree on every field but `vector`, whose dimension is 1024 in one and 768 in the other. */
  lemma DifferOnlyInDimension()
    ensures forall i :: 0 <= i < 10 ==> Fields1024[i] == Fields768[i]
    ensures Fields1024[10].name == Fields768[10].name == "vector"
    ensures Fields1024[10].dim == Some(1024) && Fields768[10].dim == Some(768)
    ensures Fields1024[10].(dim := Some(768)) == Fields768[10]
  {
  }

  /** `pk` (the tenth field) is the one primary field; it is an INT64 whose value the store generates. */
  lemma SinglePrimaryKey(fields: seq<FieldSchema>)
    requires fields == Fields1024 || fields == Fields768
    ensures forall i :: 0 <= i < |fields| ==> (fields[i].isPrimary <==> fields[i].name == "pk")
    ensures forall i :: 0 <= i < |fields| && fields[i].isPrimary ==> fields[i].autoId && fields[i].dtype == Int64
    ensures fields[9].name == "pk"
  {
  }

  /** `knowledge_id` is the one partition-key field. */
  lemma SinglePartitionKey(fields: seq<FieldSchema>)
    requires fields == Fields1024 || fields == Fields768
    ensures forall i :: 0 <= i < |fields| ==> (fields[i].isPartitionKey <==> fields[i].name == "knowledge_id")
  {
  }

  /** Every VARCHAR field holds up to 65535 characters; no other field has a length bound. */
  lemma VarCharBounds(fields: seq<FieldSchema>)
    requires fields == Fields1024 || fields == Fields768
    ensures forall i :: 0 <= i < |fields| ==> (fields[i].dtype == VarChar <==> fields[i].maxLength == Some(VarCharMaxLength))
  {
  }

  /** The vector index is HNSW under the L2 metric with M = 8 and efConstruction = 64. */
  lemma IndexParamsValues()
    ensures DefaultIndexParams.indexType == "HNSW" && DefaultIndexParams.metricType == "L2"
    ensures DefaultIndexParams.params.Keys == {"M", "efConstruction"}
    ensures DefaultIndexParams.params["M"] == 8 && DefaultIndexParams.params["efConstruction"] == 64
  {
  }
}
