/** The Service and the ConfigMap as the reconcilers hold them: heap objects around maps that Go shares
    by reference. */
module ClusterObjects {
  import opened Cluster

  class AnnotationsObject {
    var values: map<string, Version>
    constructor (values: map<string, Version>)
      ensures this.values == values
    {
      this.values := values;
    }
  }

  class ServiceObject {
    const name: string
    var version: Version
    var annotations: AnnotationsObject?
    var image: string
    var mount: Mount
    var volume: Volume
    var readiness: Readiness

    function View(): Service
      reads this, annotations
    {
      Service(version,
              ServiceSpec(if annotations == null then NilAnnotations else Annotations(annotations.values),
                          image, mount, volume),
              readiness)
    }

    constructor FromValue(name: string, x: Service)
      ensures View() == x && this.name == name
      ensures annotations != null ==> fresh(annotations)
    {
      this.name, version, readiness := name, x.version, x.readiness;
      image, mount, volume := x.spec.image, x.spec.mount, x.spec.volume;
      var a: AnnotationsObject? := null;
      if x.spec.annotations.Annotations? { a := new AnnotationsObject(x.spec.annotations.values); }
      annotations := a;
    }

    method DeepCopy() returns (copy: ServiceObject)
      ensures fresh(copy) && copy.View() == View() && copy.name == name
      ensures copy.annotations != null ==> fresh(copy.annotations)
    {
      copy := new ServiceObject.FromValue(name, View());
    }

    /** Takes over the spec of another object; its annotation map is shared, as in Go. */
    method SetSpec(expected: ServiceObject)
      modifies this
      ensures View() == old(View()).(spec := old(expected.View()).spec)
    {
      annotations, image, mount, volume := expected.annotations, expected.image, expected.mount, expected.volume;
    }
  }

  class FilesObject {
    var files: map<string, ConfigText>
    constructor (files: map<string, ConfigText>)
      ensures this.files == files
    {
      this.files := files;
    }
  }

  class ConfigMapObject {
    var version: Version
    var data: FilesObject?

    function View(): ConfigMap
      reads this, data
    {
      ConfigMap(version, if data == null then NilData else Files(data.files))
    }

    constructor FromValue(cm: ConfigMap)
      ensures View() == cm && version == cm.version
      ensures data != null ==> fresh(data)
    {
      version := cm.version;
      var d: FilesObject? := null;
      if cm.data.Files? { d := new FilesObject(cm.data.files); }
      data := d;
    }
  }
}
